/** The resumable index backfill: folders in order of their ids, each folder page by page, every page
    published first and checkpointed second, under page, message and byte budgets.

    The reference definition is `Walk`: what an idealised run that is never stopped has after k pages.
    The program's nested loops, with faults at every access and any number of resumes, are proved to
    stay on that walk. */
module SearchBackfill {
  import opened Common
  import opened SearchProjection
  import opened BackfillWalk

  datatype Envelope = Envelope(mailboxId: string, uid: string)
  datatype Page = Page(items: seq<Envelope>, hasMore: bool)
  datatype Scan = Scan(clean: bool, status: string)
  datatype Limits = Limits(pageSize: nat, maxPages: nat, maxMessages: nat, maxBytes: nat, maxMessageBytes: nat)

  /** The mailbox, the scanner, the mail parser and the configuration, all unchanging.  Folders are
      listed by ascending id; `uidCapable` says that the connector proves UID and UIDVALIDITY. */
  datatype Source = Source(
    folders: seq<Folder>, fingerprint: string, uidCapable: bool, quarantined: string -> bool,
    page: (Folder, nat) -> Page, raw: (Folder, Envelope) -> Raw,
    scan: Raw -> Scan, attachments: Raw -> Result<seq<Raw>, string>, parse: (Raw, Envelope) -> Option<string>)

  // ----- one message -----

  datatype Fate = Indexed(occurrence: Occurrence) | Held(entry: Blocked)

  /** The status of the first attachment that is not clean, if there is one. */
  function FirstUnclean(src: Source, parts: seq<Raw>): Option<string> {
    if parts == [] then None
    else if !src.scan(parts[0]).clean then Some(src.scan(parts[0]).status)
    else FirstUnclean(src, parts[1..])
  }

  /** Why the attachments fail; "" when they do not.  A scanner that reports an unclean attachment
      with an empty status goes unnoticed here. */
  function AttachmentFailure(src: Source, raw: Raw): string {
    match src.attachments(raw)
    case Err(kind) => kind
    case Ok(parts) => var status := FirstUnclean(src, parts); if status.Some? then status.value else ""
  }

  predicate StableUid(src: Source, f: Folder, e: Envelope) { src.uidCapable && f.uidvalidity != "" && e.uid != "" }

  function LocatorOf(src: Source, f: Folder, e: Envelope): Locator {
    var stable := StableUid(src, f, e);
    Locator(f.id, e.mailboxId, if stable then f.uidvalidity else "", if stable then e.uid else "",
            src.quarantined(f.name))
  }

  function FateOf(src: Source, limits: Limits, f: Folder, e: Envelope): Fate {
    var raw := src.raw(f, e);
    if |raw| > limits.maxMessageBytes then Held(Blocked(e.mailboxId, raw, TooLarge))
    else if !src.scan(raw).clean then Held(Blocked(e.mailboxId, raw, RawScan(src.scan(raw).status)))
    else if AttachmentFailure(src, raw) != ""
        then Held(Blocked(e.mailboxId, raw, Attachment(AttachmentFailure(src, raw))))
    else if src.parse(raw, e).None? then Held(Blocked(e.mailboxId, raw, ParseError))
    else Indexed(Occurrence(LocatorOf(src, f, e), raw, src.parse(raw, e).value))
  }

  // ----- one page -----

  datatype Scanned = Scanned(bytes: nat, occurrences: seq<Occurrence>, blocked: seq<Blocked>)

  function AddMessage(s: Scanned, raw: Raw, fate: Fate): Scanned {
    match fate
    case Indexed(o) => Scanned(s.bytes + |raw|, s.occurrences + [o], s.blocked)
    case Held(b) => Scanned(s.bytes + |raw|, s.occurrences, s.blocked + [b])
  }

  function ScanAll(src: Source, limits: Limits, f: Folder, items: seq<Envelope>): (s: Scanned)
    ensures |s.occurrences| + |s.blocked| == |items|
  {
    if items == [] then Scanned(0, [], [])
    else
      var e := items[|items| - 1];
      AddMessage(ScanAll(src, limits, f, items[..|items| - 1]), src.raw(f, e), FateOf(src, limits, f, e))
  }

  /** Fewer messages, fewer bytes. */
  lemma {:induction false} ScanMonotone(src: Source, limits: Limits, f: Folder, items: seq<Envelope>, j: nat)
    requires j <= |items|
    ensures ScanAll(src, limits, f, items[..j]).bytes <= ScanAll(src, limits, f, items).bytes
    decreases |items|
  {
    if j == |items| {
      assert items[..j] == items;
    } else {
      assert items[..|items| - 1][..j] == items[..j];
      ScanMonotone(src, limits, f, items[..|items| - 1], j);
    }
  }

  predicate AllUids(items: seq<Envelope>) { forall i :: 0 <= i < |items| ==> items[i].uid != "" }

  predicate PageComplete(src: Source, f: Folder, items: seq<Envelope>, blocked: seq<Blocked>) {
    blocked == [] && src.uidCapable && f.uidvalidity != "" && AllUids(items)
  }

  function Publication(src: Source, startedAt: string, f: Folder, n: nat, items: seq<Envelope>, s: Scanned)
    : Result<Reference, ProjectionError>
  {
    var complete := PageComplete(src, f, items, s.blocked);
    PublishPartition(PartitionId(f.id, n), f.id, f.name, s.occurrences, startedAt, complete, complete)
  }

  /** Page n of a folder, scanned and published; an error if it cannot be published. */
  function PageOf(src: Source, limits: Limits, startedAt: string, f: Folder, n: nat): Result<PageDone, ProjectionError>
  {
    var page := src.page(f, n);
    var s := ScanAll(src, limits, f, page.items);
    match Publication(src, startedAt, f, n, page.items, s)
    case Err(error) => Err(error)
    case Ok(ref) => Ok(PageDone(ref, |page.items|, s.bytes, s.blocked, page.hasMore))
  }

  /** The job of a backfill with this start time. */
  function JobOf(src: Source, limits: Limits, startedAt: string): Job {
    Job(src.folders, (f: Folder, n: nat) => PageOf(src, limits, startedAt, f, n))
  }

  /** Committing the page that the program reads next is one step of the walk. */
  lemma CommitFollowsWalk(src: Source, limits: Limits, startedAt: string, core: Core, i: nat, p: PageDone)
    requires core == Walk(JobOf(src, limits, startedAt), core.pages) && i < |core.folders|
    requires !core.folders[i].done && forall j :: 0 <= j < i ==> core.folders[j].done
    requires PageOf(src, limits, startedAt, src.folders[i], core.folders[i].nextPage) == Ok(p)
    ensures NextPage(JobOf(src, limits, startedAt), core) == Some(p)
    ensures Commit(core, i, p) == Walk(JobOf(src, limits, startedAt), core.pages + 1)
  {
    CurrentIsFirst(core.folders, 0, i);
  }

  /** A page that cannot be published stops the walk. */
  lemma UnpublishableStops(src: Source, limits: Limits, startedAt: string, core: Core, i: nat)
    requires |core.folders| == |src.folders| && i < |core.folders|
    requires !core.folders[i].done && forall j :: 0 <= j < i ==> core.folders[j].done
    ensures NextPage(JobOf(src, limits, startedAt), core)
            == match PageOf(src, limits, startedAt, src.folders[i], core.folders[i].nextPage) case Ok(p) =>
                Some(p) case Err(_) => None
  {
    CurrentIsFirst(core.folders, 0, i);
  }

  // ----- what the index says at the end of an invocation -----

  /** Why an invocation stopped early. */
  datatype Stop = NoStop | PageLimit | MessageLimit | ByteLimit | Backend(kind: string)

  /** Why a partition counts as incomplete: not proven or blocked, or never read. */
  datatype Incomplete = FailClosed | Pending(stop: Stop)

  /** The arguments of the root manifest, collected folder by folder. */
  datatype Coverage = Coverage(
    refs: seq<Reference>, expected: seq<string>, reasons: map<string, Incomplete>, allDone: bool, allCovered: bool)

  function IdsOf(refs: seq<Reference>): seq<string> { seq(|refs|, i requires 0 <= i < |refs| => refs[i].id) }

  predicate AllCovered(refs: seq<Reference>) { forall i :: 0 <= i < |refs| ==> Covered(refs[i]) }

  function MarkUncovered(reasons: map<string, Incomplete>, refs: seq<Reference>): map<string, Incomplete> {
    if refs == [] then reasons
    else
      var before, last := MarkUncovered(reasons, refs[..|refs| - 1]), refs[|refs| - 1];
      if Covered(last) then before else before[last.id := FailClosed]
  }

  function AddFolder(c: Coverage, f: Folder, state: FolderState, why: Stop): Coverage {
    var reasons := MarkUncovered(c.reasons, state.partitions);
    var marker := PendingMarker(f.id);
    Coverage(c.refs + state.partitions,
             c.expected + IdsOf(state.partitions) + (if state.done then [] else [marker]),
             if state.done then reasons else reasons[marker := Pending(why)],
             c.allDone && state.done, c.allCovered && AllCovered(state.partitions))
  }

  /** The reason given for a folder that is not done: its own error or that of the invocation. */
  function Why(error: Stop, stop: Stop): Stop { if error != NoStop then error else stop }

  function CoverageOf(folders: seq<Folder>, states: seq<FolderState>, errors: seq<Stop>, stop: Stop, n: nat): Coverage
    requires n <= |folders| == |states| == |errors|
  {
    if n == 0 then Coverage([], [], map[], true, true)
    else
      AddFolder(CoverageOf(folders, states, errors, stop, n - 1), folders[n - 1], states[n - 1],
                Why(errors[n - 1], stop))
  }

  /** The inner loop over the partitions of one folder. */
  method MarkPartitions(reasons: map<string, Incomplete>, refs: seq<Reference>, covered: bool)
    returns (marked: map<string, Incomplete>, allCovered: bool)
    ensures marked == MarkUncovered(reasons, refs) && allCovered == (covered && AllCovered(refs))
  {
    marked, allCovered := reasons, covered;
    for j := 0 to |refs|
      invariant marked == MarkUncovered(reasons, refs[..j]) && allCovered == (covered && AllCovered(refs[..j]))
    {
      assert refs[..j + 1][..j] == refs[..j];
      if !Covered(refs[j]) {
        allCovered := false;
        marked := marked[refs[j].id := FailClosed];
      }
    }
    assert refs[..|refs|] == refs;
  }

  /** The loop over the folders at the end of an invocation. */
  method CollectCoverage(folders: seq<Folder>, states: seq<FolderState>, errors: seq<Stop>, stop: Stop)
    returns (c: Coverage)
    requires |folders| == |states| == |errors|
    ensures c == CoverageOf(folders, states, errors, stop, |folders|)
  {
    c := Coverage([], [], map[], true, true);
    for i := 0 to |folders|
      invariant c == CoverageOf(folders, states, errors, stop, i)
    {
      var state := states[i];
      var expected := c.expected + IdsOf(state.partitions);
      var reasons, allCovered := MarkPartitions(c.reasons, state.partitions, c.allCovered);
      var allDone := c.allDone;
      if !state.done {
        allDone := false;
        var marker := PendingMarker(folders[i].id);
        expected := expected + [marker];
        reasons := reasons[marker := Pending(if errors[i] != NoStop then errors[i] else stop)];
      } else {
        assert expected + [] == expected;
      }
      c := Coverage(c.refs + state.partitions, expected, reasons, allDone, allCovered);
    }
  }

  // ----- the guards of the root manifest never trip -----

  predicate DistinctFolders(folders: seq<Folder>) {
    forall i, j :: 0 <= i < j < |folders| ==> folders[i].id != folders[j].id
  }

  predicate SafeFolders(folders: seq<Folder>) {
    forall i :: 0 <= i < |folders| ==> SafeId(PendingMarker(folders[i].id))
  }

  /** The reference is that of a page of this folder. */
  ghost predicate RefOf(r: Reference, f: Folder) { SafeId(r.id) && exists n: nat :: r.id == PartitionId(f.id, n) }

  /** Every published page of the folder carries its own partition id. */
  ghost predicate OwnIds(f: Folder, state: FolderState) {
    && (forall j :: 0 <= j < |state.partitions| ==> RefOf(state.partitions[j], f))
    && DistinctIds(state.partitions)
  }

  lemma PageHasOwnId(src: Source, limits: Limits, startedAt: string, f: Folder, n: nat)
    requires SafeId(PendingMarker(f.id)) && PageOf(src, limits, startedAt, f, n).Ok?
    ensures var id := PageOf(src, limits, startedAt, f, n).value.ref.id; id == PartitionId(f.id, n) && SafeId(id)
  {
    var id := PartitionId(f.id, n);
    PaddedNumber(n);
    assert id[|id| - 1] == Padded(n)[|Padded(n)| - 1];
    assert f.id != "" && AlphaNumeric(f.id[0]) by {
      assert PendingMarker(f.id)[0] == if f.id == "" then ':' else f.id[0];
    }
    StripKeeps(id);
  }

  lemma PageRefsOwnIds(src: Source, limits: Limits, startedAt: string, f: Folder, state: FolderState)
    requires SafeId(PendingMarker(f.id)) && OnWalk(JobOf(src, limits, startedAt), f, state)
    ensures NumberedIds(f, state.partitions)
  {
    var w := JobOf(src, limits, startedAt);
    FolderPages(w, f, state.nextPage - 1);
    forall j: nat | j < |state.partitions|
      ensures state.partitions[j].id == PartitionId(f.id, j + 1) && SafeId(state.partitions[j].id)
    {
      assert w.page(f, j + 1).Ok? && w.page(f, j + 1).value.ref == state.partitions[j];
      PageHasOwnId(src, limits, startedAt, f, j + 1);
    }
  }

  /** The j-th partition carries the id of page j + 1. */
  predicate NumberedIds(f: Folder, refs: seq<Reference>) {
    forall j: nat | j < |refs| :: refs[j].id == PartitionId(f.id, j + 1) && SafeId(refs[j].id)
  }

  lemma NumberedIsOwn(f: Folder, refs: seq<Reference>, j: nat)
    requires NumberedIds(f, refs) && j < |refs|
    ensures RefOf(refs[j], f)
  {
    var n: nat := j + 1;
    assert refs[j].id == PartitionId(f.id, n);
  }

  lemma NumberedAreDistinct(f: Folder, refs: seq<Reference>)
    requires NumberedIds(f, refs)
    ensures DistinctIds(refs)
  {
    forall i, j | 0 <= i < j < |refs| ensures refs[i].id != refs[j].id {
      PartitionIdsDistinct(f.id, i + 1, f.id, j + 1);
    }
  }

  lemma FolderOwnsIds(src: Source, limits: Limits, startedAt: string, f: Folder, state: FolderState)
    requires SafeId(PendingMarker(f.id)) && OnWalk(JobOf(src, limits, startedAt), f, state)
    ensures OwnIds(f, state)
  {
    PageRefsOwnIds(src, limits, startedAt, f, state);
    NumberedAreDistinct(f, state.partitions);
    forall j | 0 <= j < |state.partitions| ensures RefOf(state.partitions[j], f)
        { NumberedIsOwn(f, state.partitions, j); }
  }

  ghost predicate AllOwnIds(folders: seq<Folder>, states: seq<FolderState>) {
    |folders| == |states| && forall i :: 0 <= i < |folders| ==> OwnIdsAt(folders, states, i)
  }

  ghost predicate OwnIdsAt(folders: seq<Folder>, states: seq<FolderState>, i: nat)
    requires i < |folders| == |states|
  {
    OwnIds(folders[i], states[i])
  }

  function ToSet(ids: seq<string>): set<string> { set i | 0 <= i < |ids| :: ids[i] }

  /** The markers of the first n folders that are not done. */
  function Markers(folders: seq<Folder>, states: seq<FolderState>, n: nat): set<string>
    requires n <= |folders| == |states|
  {
    set i | 0 <= i < n && !states[i].done :: PendingMarker(folders[i].id)
  }

  ghost predicate FromOneOf(r: Reference, folders: seq<Folder>, n: nat)
    requires n <= |folders|
  {
    exists i :: 0 <= i < n && RefOf(r, folders[i])
  }

  ghost predicate RefsFit(refs: seq<Reference>, folders: seq<Folder>, n: nat)
    requires n <= |folders|
  {
    DistinctIds(refs) && forall j :: 0 <= j < |refs| ==> FromOneOf(refs[j], folders, n)
  }

  predicate ExpectedFit(c: Coverage, folders: seq<Folder>, states: seq<FolderState>, n: nat)
    requires n <= |folders| == |states|
  {
    SafePlain(c.expected) && ToSet(c.expected) == Ids(c.refs) + Markers(folders, states, n)
  }

  predicate FlagsFit(c: Coverage, states: seq<FolderState>, n: nat)
    requires n <= |states|
  {
    (c.allDone <==> forall i :: 0 <= i < n ==> states[i].done) && (c.allCovered <==> AllCovered(c.refs))
  }

  /** The lists collected from the first n folders fit together. */
  ghost predicate Consistent(c: Coverage, folders: seq<Folder>, states: seq<FolderState>, n: nat)
    requires n <= |folders| == |states|
  {
    RefsFit(c.refs, folders, n) && ExpectedFit(c, folders, states, n) && FlagsFit(c, states, n)
  }

  lemma IdsConcat(a: seq<Reference>, b: seq<Reference>)
    ensures Ids(a + b) == Ids(a) + Ids(b)
  {
    forall id | id in Ids(a) + Ids(b) ensures id in Ids(a + b) {
      if id in Ids(a) {
        var i :| 0 <= i < |a| && a[i].id == id;
        assert (a + b)[i] == a[i];
      } else {
        var i :| 0 <= i < |b| && b[i].id == id;
        assert (a + b)[|a| + i] == b[i];
      }
    }
  }

  lemma ToSetConcat(a: seq<string>, b: seq<string>)
    ensures ToSet(a + b) == ToSet(a) + ToSet(b)
  {
    forall id | id in ToSet(a) + ToSet(b) ensures id in ToSet(a + b) {
      if id in ToSet(a) {
        var i :| 0 <= i < |a| && a[i] == id;
        assert (a + b)[i] == a[i];
      } else {
        var i :| 0 <= i < |b| && b[i] == id;
        assert (a + b)[|a| + i] == b[i];
      }
    }
  }

  lemma ToSetOfIds(refs: seq<Reference>)
    ensures ToSet(IdsOf(refs)) == Ids(refs)
  {
    forall id | id in Ids(refs) ensures id in ToSet(IdsOf(refs)) {
      var i :| 0 <= i < |refs| && refs[i].id == id;
      assert IdsOf(refs)[i] == id;
    }
  }

  /** Pages of different folders have different ids. */
  lemma NextFolderRefs(refs: seq<Reference>, folders: seq<Folder>, n: nat, more: seq<Reference>)
    requires n < |folders| && RefsFit(refs, folders, n) && DistinctIds(more) && DistinctFolders(folders)
    requires forall j :: 0 <= j < |more| ==> RefOf(more[j], folders[n])
    ensures RefsFit(refs + more, folders, n + 1)
  {
    forall i, j | 0 <= i < |refs| && 0 <= j < |more| ensures refs[i].id != more[j].id {
      assert FromOneOf(refs[i], folders, n);
      var k :| 0 <= k < n && RefOf(refs[i], folders[k]);
      RefsOfTwoFolders(refs[i], folders[k], more[j], folders[n]);
    }
    forall j | 0 <= j < |refs + more| ensures FromOneOf((refs + more)[j], folders, n + 1) {
      if j < |refs| {
        assert FromOneOf(refs[j], folders, n);
      } else {
        assert RefOf(more[j - |refs|], folders[n]);
      }
    }
  }

  lemma RefsOfTwoFolders(r: Reference, f: Folder, q: Reference, g: Folder)
    requires RefOf(r, f) && RefOf(q, g) && f.id != g.id
    ensures r.id != q.id
  {
    var n: nat :| r.id == PartitionId(f.id, n);
    var m: nat :| q.id == PartitionId(g.id, m);
    PartitionIdsDistinct(f.id, n, g.id, m);
  }

  lemma MarkersGrow(folders: seq<Folder>, states: seq<FolderState>, n: nat)
    requires n < |folders| == |states|
    ensures Markers(folders, states, n + 1)
            == Markers(folders, states, n) + (if states[n].done then {} else {PendingMarker(folders[n].id)})
  {
  }

  lemma ExpectedGrows(c: Coverage, f: Folder, state: FolderState, why: Stop)
    requires SafePlain(c.expected) && OwnIds(f, state) && SafeId(PendingMarker(f.id))
    ensures var c' := AddFolder(c, f, state, why);
            && SafePlain(c'.expected)
            && ToSet(c'.expected) == ToSet(c.expected) + Ids(state.partitions) +
              (if state.done then {} else {PendingMarker(f.id)})
  {
    var ids, last := IdsOf(state.partitions), if state.done then [] else [PendingMarker(f.id)];
    ToSetConcat(c.expected + ids, last);
    ToSetConcat(c.expected, ids);
    ToSetOfIds(state.partitions);
    assert ToSet(last) == if state.done then {} else {PendingMarker(f.id)} by {
      if !state.done { assert last[0] == PendingMarker(f.id); }
    }
    forall i | 0 <= i < |ids| ensures SafeId(ids[i]) { assert RefOf(state.partitions[i], f); }
  }

  predicate GoodFolders(folders: seq<Folder>) { DistinctFolders(folders) && SafeFolders(folders) }

  lemma FolderExpected(c: Coverage, folders: seq<Folder>, states: seq<FolderState>, n: nat, why: Stop)
    requires n < |folders| == |states| && ExpectedFit(c, folders, states, n)
    requires OwnIds(folders[n], states[n]) && SafeId(PendingMarker(folders[n].id))
    ensures ExpectedFit(AddFolder(c, folders[n], states[n], why), folders, states, n + 1)
  {
    ExpectedGrows(c, folders[n], states[n], why);
    IdsConcat(c.refs, states[n].partitions);
    MarkersGrow(folders, states, n);
  }

  lemma FolderRefs(c: Coverage, folders: seq<Folder>, state: FolderState, n: nat, why: Stop)
    requires n < |folders| && RefsFit(c.refs, folders, n) && DistinctFolders(folders) && OwnIds(folders[n], state)
    ensures RefsFit(AddFolder(c, folders[n], state, why).refs, folders, n + 1)
  {
    NextFolderRefs(c.refs, folders, n, state.partitions);
  }

  lemma FolderFlags(c: Coverage, f: Folder, states: seq<FolderState>, n: nat, why: Stop)
    requires n < |states| && FlagsFit(c, states, n)
    ensures FlagsFit(AddFolder(c, f, states[n], why), states, n + 1)
  {
    CoveredConcat(c.refs, states[n].partitions);
  }

  lemma FolderFits(c: Coverage, folders: seq<Folder>, states: seq<FolderState>, n: nat, why: Stop)
    requires n < |folders| == |states| && Consistent(c, folders, states, n) && GoodFolders(folders)
    requires OwnIds(folders[n], states[n])
    ensures Consistent(AddFolder(c, folders[n], states[n], why), folders, states, n + 1)
  {
    FolderExpected(c, folders, states, n, why);
    FolderRefs(c, folders, states[n], n, why);
    FolderFlags(c, folders[n], states, n, why);
  }

  lemma NextFolderFits(folders: seq<Folder>, states: seq<FolderState>, errors: seq<Stop>, stop: Stop, n: nat)
    requires n < |folders| == |states| == |errors| && GoodFolders(folders) && OwnIdsAt(folders, states, n)
    requires Consistent(CoverageOf(folders, states, errors, stop, n), folders, states, n)
    ensures Consistent(CoverageOf(folders, states, errors, stop, n + 1), folders, states, n + 1)
  {
    FolderFits(CoverageOf(folders, states, errors, stop, n), folders, states, n, Why(errors[n], stop));
  }

  lemma NothingFits(folders: seq<Folder>, states: seq<FolderState>)
    requires |folders| == |states|
    ensures Consistent(Coverage([], [], map[], true, true), folders, states, 0)
  {
  }

  lemma {:induction false} CoverageFits(folders: seq<Folder>, states: seq<FolderState>, errors: seq<Stop>, stop: Stop,
                                        n: nat)
    requires |folders| == |states| == |errors| && n <= |folders| && GoodFolders(folders)
    requires forall i | 0 <= i < n :: OwnIdsAt(folders, states, i)
    ensures Consistent(CoverageOf(folders, states, errors, stop, n), folders, states, n)
  {
    if n == 0 {
      NothingFits(folders, states);
    } else {
      CoverageFits(folders, states, errors, stop, n - 1);
      NextFolderFits(folders, states, errors, stop, n - 1);
    }
  }

  lemma CoveredConcat(a: seq<Reference>, b: seq<Reference>)
    ensures AllCovered(a + b) <==> AllCovered(a) && AllCovered(b)
  {
    if AllCovered(a + b) {
      forall i | 0 <= i < |a| ensures Covered(a[i]) { assert (a + b)[i] == a[i]; }
      forall i | 0 <= i < |b| ensures Covered(b[i]) { assert (a + b)[|a| + i] == b[i]; }
    }
  }

  /** The expected ids without the covered ones. */
  function Without(ids: seq<string>, covered: set<string>): seq<string> {
    if ids == [] then []
    else Without(ids[..|ids| - 1], covered) + (if ids[|ids| - 1] in covered then [] else [ids[|ids| - 1]])
  }

  lemma {:induction false} WithoutIsDifference(ids: seq<string>, covered: set<string>)
    ensures ToSet(Without(ids, covered)) == ToSet(ids) - covered
    ensures SafePlain(ids) ==> SafePlain(Without(ids, covered))
  {
    if ids != [] {
      var front, last := ids[..|ids| - 1], ids[|ids| - 1];
      WithoutIsDifference(front, covered);
      ToSetConcat(front, [last]);
      assert front + [last] == ids && ToSet([last]) == {last} by { assert [last][0] == last; }
      var kept: seq<string> := if last in covered then [] else [last];
      ToSetConcat(Without(front, covered), kept);
      assert ToSet(kept) == {last} - covered;
    }
  }

  function RootFrom(c: Coverage, startedAt: string): Result<Root<Incomplete>, ProjectionError> {
    var complete := c.allDone && c.allCovered;
    PublishRoot(c.refs, c.expected, complete, complete, Without(c.expected, CoveredIds(c.refs)), c.reasons, startedAt)
  }

  /** The manifest that an invocation publishes at its end. */
  function RootOf(folders: seq<Folder>, states: seq<FolderState>, errors: seq<Stop>, stop: Stop, startedAt: string)
    : Result<Root<Incomplete>, ProjectionError>
    requires |folders| == |states| == |errors|
  {
    RootFrom(CoverageOf(folders, states, errors, stop, |folders|), startedAt)
  }

  lemma CoveredAll(refs: seq<Reference>)
    ensures CoveredIds(refs) <= Ids(refs)
    ensures AllCovered(refs) ==> CoveredIds(refs) == Ids(refs)
  {
  }

  lemma NoMarkersWhenDone(folders: seq<Folder>, states: seq<FolderState>)
    requires |folders| == |states| && forall i :: 0 <= i < |states| ==> states[i].done
    ensures Markers(folders, states, |folders|) == {}
  {
  }

  /** The manifest says exactly what was read and what was not. */
  predicate Exact(root: Root<Incomplete>, refs: seq<Reference>, folders: seq<Folder>, states: seq<FolderState>)
    requires |folders| == |states|
  {
    && root.expected == Ids(refs) + Markers(folders, states, |folders|)
    && root.completeIds == CoveredIds(refs)
    && root.incomplete == root.expected - root.completeIds
    && (root.complete <==> (forall i :: 0 <= i < |states| ==> states[i].done) && AllCovered(refs))
    && (root.complete ==> root.expected == root.completeIds == Ids(refs))
  }

  lemma ConsistentIsAccepted(c: Coverage, folders: seq<Folder>, states: seq<FolderState>, startedAt: string)
    requires |folders| == |states| && Consistent(c, folders, states, |folders|)
    ensures var r := RootFrom(c, startedAt); r.Ok? && Exact(r.value, c.refs, folders, states)
  {
    DistinctIdsCount(c.refs);
    PlainIds(c.expected);
    var incomplete := Without(c.expected, CoveredIds(c.refs));
    WithoutIsDifference(c.expected, CoveredIds(c.refs));
    PlainIds(incomplete);
    CoveredAll(c.refs);
    if c.allDone { NoMarkersWhenDone(folders, states); }
  }

  /** Whatever was read so far, the arguments the run builds pass every guard of the root manifest, and
      the manifest is complete exactly when all folders are done and all pages are covered. */
  lemma RootIsAccepted(folders: seq<Folder>, states: seq<FolderState>, errors: seq<Stop>, stop: Stop, startedAt: string)
    requires AllOwnIds(folders, states) && |errors| == |folders| && GoodFolders(folders)
    ensures var refs, r := CoverageOf(folders, states, errors, stop, |folders|).refs,
              RootOf(folders, states, errors, stop, startedAt);
            r.Ok? && Exact(r.value, refs, folders, states)
  {
    CoverageFits(folders, states, errors, stop, |folders|);
    ConsistentIsAccepted(CoverageOf(folders, states, errors, stop, |folders|), folders, states, startedAt);
  }

  lemma WalkOwnsIds(src: Source, limits: Limits, startedAt: string, k: nat)
    requires SafeFolders(src.folders)
    ensures AllOwnIds(src.folders, Walk(JobOf(src, limits, startedAt), k).folders)
  {
    var w := JobOf(src, limits, startedAt);
    WalkShape(w, k);
    var states := Walk(w, k).folders;
    forall i | 0 <= i < |states| ensures OwnIdsAt(src.folders, states, i) {
      assert OnWalk(w, w.folders[i], states[i]);
      FolderOwnsIds(src, limits, startedAt, src.folders[i], states[i]);
    }
  }

  /** A finished folder needs no reason, so the errors of earlier stops leave no trace. */
  lemma {:induction false} DoneForgetsErrors(folders: seq<Folder>, states: seq<FolderState>, errors: seq<Stop>,
                                             stop: Stop,
                                             errors': seq<Stop>, stop': Stop, n: nat)
    requires n <= |folders| == |states| == |errors| == |errors'| && forall i :: 0 <= i < n ==> states[i].done
    ensures CoverageOf(folders, states, errors, stop, n) == CoverageOf(folders, states, errors', stop', n)
  {
    if n > 0 {
      DoneForgetsErrors(folders, states, errors, stop, errors', stop', n - 1);
    }
  }

  /** Two backfills with the same start time that both got through all folders, however they were cut
      into invocations and stopped in between, have the same checkpoint core and the same manifest. */
  lemma CutUpRunsAgree(src: Source, limits: Limits, startedAt: string,
                       k: nat, errors: seq<Stop>, stop: Stop, m: nat, errors': seq<Stop>, stop': Stop)
    requires |errors| == |errors'| == |src.folders|
    requires AllDone(Walk(JobOf(src, limits, startedAt), k)) && AllDone(Walk(JobOf(src, limits, startedAt), m))
    ensures var w := JobOf(src, limits, startedAt);
            && Walk(w, k) == Walk(w, m)
            && RootOf(src.folders, Walk(w, k).folders, errors, stop, startedAt)
               == RootOf(src.folders, Walk(w, m).folders, errors', stop', startedAt)
  {
    var w := JobOf(src, limits, startedAt);
    CompletedRunsAgree(w, k, m);
    DoneForgetsErrors(src.folders, Walk(w, k).folders, errors, stop, errors', stop', |src.folders|);
  }
}
