/** What a complete backfill means: every message of every page was checked and indexed, and with the
    native inventory every UID of every folder is in the index exactly once. */
module BackfillResults {
  import opened Common
  import opened SearchProjection
  import opened BackfillWalk
  import opened SearchBackfill
  import opened BackfillRun
  import opened ImapInventory

  // ----- one message -----

  predicate AllClean(src: Source, parts: seq<Raw>) { forall i | 0 <= i < |parts| :: src.scan(parts[i]).clean }

  /** The first unclean attachment is passed over exactly when the scanner gave it an empty status. */
  lemma {:induction false} UncleanIsReported(src: Source, parts: seq<Raw>)
    ensures FirstUnclean(src, parts).None? <==> AllClean(src, parts)
    ensures FirstUnclean(src, parts).Some? ==>
              exists i :: 0 <= i < |parts| && !src.scan(parts[i]).clean
                  && src.scan(parts[i]).status == FirstUnclean(src, parts).value
                          && AllClean(src, parts[..i])
  {
    if parts != [] {
      UncleanIsReported(src, parts[1..]);
      if !src.scan(parts[0]).clean {
        assert AllClean(src, parts[..0]);
      } else {
        if AllClean(src, parts[1..]) {
          forall i | 0 <= i < |parts| ensures src.scan(parts[i]).clean
              { if i > 0 { assert parts[i] == parts[1..][i - 1]; } }
        } else {
          var i :| 0 <= i < |parts[1..]| && !src.scan(parts[1..][i]).clean
                   && src.scan(parts[1..][i]).status == FirstUnclean(src, parts[1..]).value
                       && AllClean(src, parts[1..][..i]);
          assert parts[i + 1] == parts[1..][i];
          var prefix := parts[..i + 1];
          forall j | 0 <= j < |prefix| ensures src.scan(prefix[j]).clean {
            if j > 0 { assert prefix[j] == parts[1..][..i][j - 1]; }
          }
        }
      }
    }
  }

  /** An indexed message should be within the size limit, and it and all its attachments clean. */
  ghost predicate Checked(src: Source, limits: Limits, f: Folder, e: Envelope) {
    var raw := src.raw(f, e);
    && |raw| <= limits.maxMessageBytes && src.scan(raw).clean
    && src.attachments(raw).Ok? && AllClean(src, src.attachments(raw).value)
  }

  /** The attachments fail, but the failure has an empty name. */
  predicate Unnamed(src: Source, raw: Raw) {
    match src.attachments(raw)
    case Err(kind) => kind == ""
    case Ok(parts) => FirstUnclean(src, parts) == Some("")
  }

  lemma FailureIff(src: Source, raw: Raw)
    ensures AttachmentFailure(src, raw) == ""
            <==> Unnamed(src, raw) || (src.attachments(raw).Ok? && AllClean(src, src.attachments(raw).value))
  {
    if src.attachments(raw).Ok? {
      UncleanIsReported(src, src.attachments(raw).value);
    }
  }

  /** A message is indexed without being checked exactly when everything before the attachments is in
      order and their failure has an empty name; otherwise indexed means checked and parsed. */
  lemma IndexedIsChecked(src: Source, limits: Limits, f: Folder, e: Envelope)
    ensures var raw := src.raw(f, e);
            FateOf(src, limits, f, e).Indexed? && !Checked(src, limits, f, e)
            <==> |raw| <= limits.maxMessageBytes && src.scan(raw).clean && src.parse(raw, e).Some? && Unnamed(src, raw)
    ensures !Unnamed(src, src.raw(f, e)) ==>
              (FateOf(src, limits, f, e).Indexed? <==> Checked(src, limits, f, e) && src.parse(src.raw(f, e), e).Some?)
  {
    var raw := src.raw(f, e);
    FailureIff(src, raw);
    if src.attachments(raw).Ok? {
      UncleanIsReported(src, src.attachments(raw).value);
    }
  }

  // ----- the scanner and the decoder of the assistant -----

  /** The statuses that the host's scanner reports; only the first is clean. */
  datatype HostStatus = Clean | Infected | ScanError | Disabled

  function ScanOf(status: HostStatus): Scan {
    match status
    case Clean => Scan(true, "clean")
    case Infected => Scan(false, "infected")
    case ScanError => Scan(false, "error")
    case Disabled => Scan(false, "disabled")
  }

  ghost predicate HostScanner(src: Source) { forall raw :: ScannedByHost(src, raw) }

  ghost predicate ScannedByHost(src: Source, raw: Raw) { exists status :: src.scan(raw) == ScanOf(status) }

  /** The decoder of attachments fails with one of two names. */
  predicate DecoderNames(src: Source, raw: Raw) {
    src.attachments(raw).Err? ==> src.attachments(raw).error in {"mail-parse-error", "attachment-decode-error"}
  }

  ghost predicate HostDecoder(src: Source) { forall raw :: DecoderNames(src, raw) }

  /** With them no failure goes unnamed. */
  lemma HostNamesFailures(src: Source, raw: Raw)
    requires HostScanner(src) && HostDecoder(src)
    ensures !Unnamed(src, raw)
  {
    assert DecoderNames(src, raw);
    if src.attachments(raw).Ok? {
      var parts := src.attachments(raw).value;
      UncleanIsReported(src, parts);
      if FirstUnclean(src, parts).Some? {
        var i :| 0 <= i < |parts| && src.scan(parts[i]).status == FirstUnclean(src, parts).value;
        assert ScannedByHost(src, parts[i]);
      }
    }
  }

  // ----- one page -----

  /** The partition lists exactly the page's messages, in order. */
  predicate PageIndexed(src: Source, limits: Limits, f: Folder, items: seq<Envelope>, records: seq<Occurrence>) {
    |records| == |items| && forall k | 0 <= k < |items| :: FateOf(src, limits, f, items[k]) == Indexed(records[k])
  }

  lemma {:induction false} NothingHeld(src: Source, limits: Limits, f: Folder, items: seq<Envelope>)
    requires ScanAll(src, limits, f, items).blocked == []
    ensures PageIndexed(src, limits, f, items, ScanAll(src, limits, f, items).occurrences)
  {
    if items != [] {
      var front := items[..|items| - 1];
      assert ScanAll(src, limits, f, front).blocked == [] by {
        assert ScanAll(src, limits, f, front).blocked <= ScanAll(src, limits, f, items).blocked;
      }
      NothingHeld(src, limits, f, front);
    }
  }

  lemma CoveredPage(src: Source, limits: Limits, startedAt: string, f: Folder, n: nat)
    requires PageOf(src, limits, startedAt, f, n).Ok? && Covered(PageOf(src, limits, startedAt, f, n).value.ref)
    ensures var p := PageOf(src, limits, startedAt, f, n).value;
            && p.blocked == [] && PageIndexed(src, limits, f, src.page(f, n).items, p.ref.records)
            && src.uidCapable && f.uidvalidity != "" && AllUids(src.page(f, n).items)
  {
    NothingHeld(src, limits, f, src.page(f, n).items);
  }

  // ----- one folder -----

  lemma {:induction false} NoPageBlocked(w: Job, f: Folder, n: nat)
    requires FolderAt(w, f, n).Some?
    requires forall j | 1 <= j <= n :: w.page(f, j).Ok? && w.page(f, j).value.blocked == []
    ensures FolderAt(w, f, n).value.blocked == []
  {
    if n > 0 {
      NoPageBlocked(w, f, n - 1);
    }
  }

  ghost predicate FolderIndexed(src: Source, limits: Limits, f: Folder, state: FolderState) {
    && state.done && state.blocked == [] && |state.partitions| == state.nextPage - 1 >= 1
    && src.uidCapable && f.uidvalidity != ""
    && (forall j | 1 <= j < state.nextPage ::
          PageIndexed(src, limits, f, src.page(f, j).items, state.partitions[j - 1].records)
          && (src.page(f, j).hasMore <==> j < state.nextPage - 1))
  }

  lemma CoveredPageOfFolder(src: Source, limits: Limits, startedAt: string, f: Folder, ref: Reference, n: nat)
    requires PageOf(src, limits, startedAt, f, n).Ok? && PageOf(src, limits, startedAt, f, n).value.ref == ref
               && Covered(ref)
    ensures PageIndexed(src, limits, f, src.page(f, n).items, ref.records)
    ensures var w := JobOf(src, limits, startedAt);
            w.page(f, n).Ok? && w.page(f, n).value.blocked == [] && w.page(f, n).value.hasMore == src.page(f, n).hasMore
    ensures src.uidCapable && f.uidvalidity != ""
  {
    CoveredPage(src, limits, startedAt, f, n);
  }

  /** Page j of a folder on the walk, when the folder is covered. */
  lemma CoveredPageAt(src: Source, limits: Limits, startedAt: string, f: Folder, state: FolderState, j: nat)
    requires OnWalk(JobOf(src, limits, startedAt), f, state) && AllCovered(state.partitions)
    requires 1 <= j < state.nextPage
    ensures |state.partitions| == state.nextPage - 1
    ensures PageIndexed(src, limits, f, src.page(f, j).items, state.partitions[j - 1].records)
    ensures var w := JobOf(src, limits, startedAt);
            w.page(f, j).Ok? && w.page(f, j).value.blocked == [] && w.page(f, j).value.hasMore == src.page(f, j).hasMore
    ensures src.uidCapable && f.uidvalidity != ""
  {
    var w := JobOf(src, limits, startedAt);
    FolderPages(w, f, state.nextPage - 1);
    assert w.page(f, j).Ok? && w.page(f, j).value.ref == state.partitions[j - 1];
    CoveredPageOfFolder(src, limits, startedAt, f, state.partitions[j - 1], j);
  }

  lemma CoveredFolder(src: Source, limits: Limits, startedAt: string, f: Folder, state: FolderState)
    requires OnWalk(JobOf(src, limits, startedAt), f, state) && state.done && AllCovered(state.partitions)
    ensures FolderIndexed(src, limits, f, state)
  {
    var w := JobOf(src, limits, startedAt);
    FolderPages(w, f, state.nextPage - 1);
    forall j: nat | 1 <= j < state.nextPage
      ensures PageIndexed(src, limits, f, src.page(f, j).items, state.partitions[j - 1].records)
      ensures w.page(f, j).Ok? && w.page(f, j).value.blocked == []
                && w.page(f, j).value.hasMore == src.page(f, j).hasMore
      ensures src.uidCapable && f.uidvalidity != ""
    {
      CoveredPageAt(src, limits, startedAt, f, state, j);
    }
    NoPageBlocked(w, f, state.nextPage - 1);
  }

  // ----- the whole index -----

  lemma {:induction false} EveryFolderCovered(folders: seq<Folder>, states: seq<FolderState>, errors: seq<Stop>,
                                              stop: Stop, n: nat, i: nat)
    requires i < n <= |folders| == |states| == |errors| && CoverageOf(folders, states, errors, stop, n).allCovered
    ensures AllCovered(states[i].partitions)
  {
    if i < n - 1 {
      EveryFolderCovered(folders, states, errors, stop, n - 1, i);
    }
  }

  lemma {:induction false} EveryFolderDone(folders: seq<Folder>, states: seq<FolderState>, errors: seq<Stop>,
                                           stop: Stop, n: nat, i: nat)
    requires i < n <= |folders| == |states| == |errors| && CoverageOf(folders, states, errors, stop, n).allDone
    ensures states[i].done
  {
    if i < n - 1 {
      EveryFolderDone(folders, states, errors, stop, n - 1, i);
    }
  }

  lemma CompleteFolder(src: Source, limits: Limits, startedAt: string, states: seq<FolderState>, errors: seq<Stop>,
                       stop: Stop, i: nat)
    requires i < |src.folders| == |states| == |errors|
    requires OnWalk(JobOf(src, limits, startedAt), src.folders[i], states[i])
    requires CoverageOf(src.folders, states, errors, stop, |states|).allDone
    requires CoverageOf(src.folders, states, errors, stop, |states|).allCovered
    ensures FolderIndexed(src, limits, src.folders[i], states[i])
  {
    EveryFolderCovered(src.folders, states, errors, stop, |states|, i);
    EveryFolderDone(src.folders, states, errors, stop, |states|, i);
    CoveredFolder(src, limits, startedAt, src.folders[i], states[i]);
  }

  lemma CompleteStates(src: Source, limits: Limits, startedAt: string, core: Core, errors: seq<Stop>, stop: Stop)
    requires FoldersOnWalk(JobOf(src, limits, startedAt), core) && |errors| == |src.folders|
    requires CoverageOf(src.folders, core.folders, errors, stop, |src.folders|).allDone
    requires CoverageOf(src.folders, core.folders, errors, stop, |src.folders|).allCovered
    ensures forall i | 0 <= i < |src.folders| :: FolderIndexed(src, limits, src.folders[i], core.folders[i])
  {
    var w := JobOf(src, limits, startedAt);
    forall i | 0 <= i < |src.folders| ensures FolderIndexed(src, limits, src.folders[i], core.folders[i]) {
      assert OnWalk(w, w.folders[i], core.folders[i]);
      CompleteFolder(src, limits, startedAt, core.folders, errors, stop, i);
    }
  }

  lemma CompleteRoot(c: Coverage, startedAt: string)
    requires RootFrom(c, startedAt).Ok? && RootFrom(c, startedAt).value.complete
    ensures c.allDone && c.allCovered
  {
  }

  /** A complete manifest: no folder has a blocked entry, and every message of every page from the first
      to the last one was indexed, in order. */
  lemma CompleteIndexesEverything(src: Source, limits: Limits, startedAt: string, core: Core, errors: seq<Stop>,
                                  stop: Stop)
    requires core == Walk(JobOf(src, limits, startedAt), core.pages) && |errors| == |src.folders|
    requires RootOf(src.folders, core.folders, errors, stop, startedAt).Ok?
    requires RootOf(src.folders, core.folders, errors, stop, startedAt).value.complete
    ensures forall i | 0 <= i < |src.folders| :: FolderIndexed(src, limits, src.folders[i], core.folders[i])
  {
    CompleteRoot(CoverageOf(src.folders, core.folders, errors, stop, |src.folders|), startedAt);
    WalkShape(JobOf(src, limits, startedAt), core.pages);
    CompleteStates(src, limits, startedAt, core, errors, stop);
  }

  // ----- with the native inventory -----

  /** The pages of the folder are those of this snapshot. */
  ghost predicate NativePages(src: Source, f: Folder, uids: seq<int>, size: nat)
    requires size >= 1 && Positive(uids)
  {
    forall n: nat {:trigger src.page(f, n)} | n >= 1 :: src.page(f, n) == PageAt(uids, n, size)
  }

  function Records(partitions: seq<Reference>, n: nat): seq<Occurrence>
    requires n <= |partitions|
  {
    if n == 0 then [] else Records(partitions, n - 1) + partitions[n - 1].records
  }

  lemma IndexedConcat(src: Source, limits: Limits, f: Folder, a: seq<Envelope>, x: seq<Occurrence>, b: seq<Envelope>,
                      y: seq<Occurrence>)
    requires PageIndexed(src, limits, f, a, x) && PageIndexed(src, limits, f, b, y)
    ensures PageIndexed(src, limits, f, a + b, x + y)
  {
  }

  lemma {:induction false} RecordsFollowItems(src: Source, limits: Limits, f: Folder, state: FolderState,
                                              uids: seq<int>, size: nat, n: nat)
    requires size >= 1 && Positive(uids) && NativePages(src, f, uids, size)
    requires FolderIndexed(src, limits, f, state) && n < state.nextPage
    ensures PageIndexed(src, limits, f, ItemsUpTo(uids, n, size), Records(state.partitions, n))
  {
    if n > 0 {
      RecordsFollowItems(src, limits, f, state, uids, size, n - 1);
      assert src.page(f, n) == PageAt(uids, n, size);
      IndexedConcat(src, limits, f, ItemsUpTo(uids, n - 1, size), Records(state.partitions, n - 1),
                    PageAt(uids, n, size).items, state.partitions[n - 1].records);
    }
  }

  /** The records of a folder are those of its UIDs: one for each, in order, none besides. */
  lemma EveryUidOnce(src: Source, limits: Limits, f: Folder, state: FolderState, uids: seq<int>, size: nat)
    requires size >= 1 && Positive(uids) && NativePages(src, f, uids, size)
    requires FolderIndexed(src, limits, f, state)
    ensures var records := Records(state.partitions, |state.partitions|);
            && |records| == |uids|
            && forall u | 0 <= u < |uids| ::
                 && records[u].locator.uid == Decimal(uids[u]) && records[u].locator.folderId == f.id
                 && FateOf(src, limits, f, EnvelopeOf(uids[u])) == Indexed(records[u])
  {
    var n := state.nextPage - 1;
    RecordsFollowItems(src, limits, f, state, uids, size, n);
    assert src.page(f, n) == PageAt(uids, n, size);
    PagesYieldEveryUid(uids, n, size);
    var records := Records(state.partitions, n);
    forall u | 0 <= u < |uids|
      ensures records[u].locator.uid == Decimal(uids[u]) && records[u].locator.folderId == f.id
      ensures FateOf(src, limits, f, EnvelopeOf(uids[u])) == Indexed(records[u])
    {
      assert EnvelopesOf(uids)[u] == EnvelopeOf(uids[u]);
    }
  }

  // ----- what a complete report means -----

  lemma {:induction false} RefsCollected(folders: seq<Folder>, states: seq<FolderState>, errors: seq<Stop>, stop: Stop,
                                         n: nat, i: nat, j: nat)
    requires i < n <= |folders| == |states| == |errors| && j < |states[i].partitions|
    ensures states[i].partitions[j] in CoverageOf(folders, states, errors, stop, n).refs
  {
    var c := CoverageOf(folders, states, errors, stop, n - 1);
    if i < n - 1 {
      RefsCollected(folders, states, errors, stop, n - 1, i, j);
      var k :| 0 <= k < |c.refs| && c.refs[k] == states[i].partitions[j];
      assert (c.refs + states[n - 1].partitions)[k] == states[i].partitions[j];
    } else {
      assert (c.refs + states[i].partitions)[|c.refs| + j] == states[i].partitions[j];
    }
  }

  lemma ManifestNames(c: Coverage, startedAt: string, ref: Reference)
    requires RootFrom(c, startedAt).Ok? && ref in c.refs
    ensures ref in RootFrom(c, startedAt).value.partitions
  {
  }

  /** The folder's partitions are published and named by the manifest, nothing is blocked, and their records
      are those of exactly these UIDs, once each and in order, each of a checked message. */
  ghost predicate FolderPublished(b: Backfill, f: Folder, state: FolderState, uids: seq<int>)
    requires Positive(uids)
    reads b
  {
    && state.done && state.blocked == [] && b.root.Some?
    && (forall j | 0 <= j < |state.partitions| ::
          state.partitions[j] in b.published && state.partitions[j] in b.root.value.partitions)
    && RecordsOf(b.src, b.limits, f, Records(state.partitions, |state.partitions|), uids)
  }

  ghost predicate RecordsOf(src: Source, limits: Limits, f: Folder, records: seq<Occurrence>, uids: seq<int>)
    requires Positive(uids)
  {
    |records| == |uids| && forall u | 0 <= u < |uids| ::
      && records[u].locator.uid == Decimal(uids[u]) && records[u].locator.folderId == f.id
      && FateOf(src, limits, f, EnvelopeOf(uids[u])) == Indexed(records[u])
      && Checked(src, limits, f, EnvelopeOf(uids[u]))
  }

  lemma FolderRecords(src: Source, limits: Limits, f: Folder, state: FolderState, uids: seq<int>, size: nat)
    requires size >= 1 && Positive(uids) && NativePages(src, f, uids, size)
    requires FolderIndexed(src, limits, f, state) && HostScanner(src) && HostDecoder(src)
    ensures RecordsOf(src, limits, f, Records(state.partitions, |state.partitions|), uids)
  {
    EveryUidOnce(src, limits, f, state, uids, size);
    forall u | 0 <= u < |uids| ensures Checked(src, limits, f, EnvelopeOf(uids[u])) {
      IndexedIsChecked(src, limits, f, EnvelopeOf(uids[u]));
      HostNamesFailures(src, src.raw(f, EnvelopeOf(uids[u])));
    }
  }

  lemma ReportedFolder(b: Backfill, startedAt: string, start: Core, r: Report, i: nat)
    requires b.Reported(startedAt, start, r) && r.complete && i < |b.src.folders|
    ensures |b.file.value.core.folders| == |b.src.folders|
    ensures FolderIndexed(b.src, b.limits, b.src.folders[i], b.file.value.core.folders[i])
    ensures forall j | 0 <= j < |b.file.value.core.folders[i].partitions| ::
              && b.file.value.core.folders[i].partitions[j] in b.published
              && b.file.value.core.folders[i].partitions[j] in b.root.value.partitions
  {
    var core, errors := b.file.value.core, b.file.value.errors;
    CompleteIndexesEverything(b.src, b.limits, startedAt, core, errors, r.stop);
    var c := CoverageOf(b.src.folders, core.folders, errors, r.stop, |b.src.folders|);
    forall j | 0 <= j < |core.folders[i].partitions|
      ensures core.folders[i].partitions[j] in b.published && core.folders[i].partitions[j] in b.root.value.partitions
    {
      RefsCollected(b.src.folders, core.folders, errors, r.stop, |b.src.folders|, i, j);
      ManifestNames(c, startedAt, core.folders[i].partitions[j]);
    }
  }

  /** A backfill that reports complete, with the native inventory and the host's scanner: every UID of every
      selected folder is published exactly once, in partitions that the manifest names, each message was
      within the size limit and clean with all its attachments, and no folder has a blocked entry. */
  lemma CompleteReportMeans(b: Backfill, startedAt: string, start: Core, r: Report, uids: seq<seq<int>>, size: nat)
    requires b.Reported(startedAt, start, r) && r.complete && HostScanner(b.src) && HostDecoder(b.src)
    requires size >= 1 && |uids| == |b.src.folders|
    requires forall i | 0 <= i < |uids| :: Positive(uids[i]) && NativePages(b.src, b.src.folders[i], uids[i], size)
    ensures |b.file.value.core.folders| == |b.src.folders|
    ensures forall i | 0 <= i < |uids| :: FolderPublished(b, b.src.folders[i], b.file.value.core.folders[i], uids[i])
  {
    forall i | 0 <= i < |uids|
      ensures |b.file.value.core.folders| == |b.src.folders|
      ensures FolderPublished(b, b.src.folders[i], b.file.value.core.folders[i], uids[i])
    {
      ReportedFolder(b, startedAt, start, r, i);
      FolderRecords(b.src, b.limits, b.src.folders[i], b.file.value.core.folders[i], uids[i], size);
    }
  }
}
