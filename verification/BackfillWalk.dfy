/** The walk of the index backfill over folders and pages: what an idealised run that is never stopped
    has after k pages, whatever the pages hold. */
module BackfillWalk {
  import opened Common
  import opened SearchProjection

  datatype Folder = Folder(id: string, name: string, uidvalidity: string)

  datatype Reason = TooLarge | RawScan(status: string) | Attachment(status: string) | ParseError

  datatype Blocked = Blocked(mailboxId: string, raw: Raw, reason: Reason)

  /** A page that was read, scanned and published. */
  datatype PageDone = PageDone(ref: Reference, messages: nat, bytes: nat, blocked: seq<Blocked>, hasMore: bool)

  /** The folders by ascending id, and the outcome of every page; an error if it cannot be published. */
  datatype Job = Job(folders: seq<Folder>, page: (Folder, nat) -> Result<PageDone, ProjectionError>)

  // ----- the checkpoint -----

  datatype FolderState = FolderState(
    nextPage: nat, done: bool, partitions: seq<Reference>, messages: nat, bytes: nat, blocked: seq<Blocked>)

  /** Folder states and metrics: the part of a checkpoint that a resume continues from. */
  datatype Core = Core(folders: seq<FolderState>, pages: nat, messages: nat, bytes: nat)

  function FreshFolder(): FolderState { FolderState(1, false, [], 0, 0, []) }

  function FreshCore(w: Job): Core { Core(seq(|w.folders|, _ => FreshFolder()), 0, 0, 0) }

  function AddPage(s: FolderState, p: PageDone): FolderState {
    FolderState(s.nextPage + 1, !p.hasMore, s.partitions + [p.ref], s.messages + p.messages, s.bytes + p.bytes,
                s.blocked + p.blocked)
  }

  function Commit(core: Core, i: nat, p: PageDone): Core
    requires i < |core.folders|
  {
    Core(core.folders[i := AddPage(core.folders[i], p)], core.pages + 1, core.messages + p.messages,
         core.bytes + p.bytes)
  }

  /** The first folder from i on that is not done. */
  function Current(folders: seq<FolderState>, i: nat): (c: nat)
    requires i <= |folders|
    ensures i <= c <= |folders| && (c < |folders| ==> !folders[c].done)
    ensures forall j :: i <= j < c ==> folders[j].done
    decreases |folders| - i
  {
    if i == |folders| || !folders[i].done then i else Current(folders, i + 1)
  }

  predicate AllDone(core: Core) { forall i :: 0 <= i < |core.folders| ==> core.folders[i].done }

  /** The next page of the idealised run. */
  function NextPage(w: Job, core: Core): Option<PageDone>
    requires |core.folders| == |w.folders|
  {
    var c := Current(core.folders, 0);
    if c == |core.folders| then None
    else match w.page(w.folders[c], core.folders[c].nextPage)
      case Ok(p) => Some(p)
      case Err(_) => None
  }

  function Advance(w: Job, core: Core): (next: Core)
    requires |core.folders| == |w.folders|
    ensures |next.folders| == |w.folders|
  {
    match NextPage(w, core)
    case Some(p) => Commit(core, Current(core.folders, 0), p)
    case None => core
  }

  /** The idealised run after k pages. */
  function Walk(w: Job, k: nat): (core: Core)
    ensures |core.folders| == |w.folders|
  {
    if k == 0 then FreshCore(w) else Advance(w, Walk(w, k - 1))
  }

  // ----- the walk -----

  lemma CurrentIsFirst(folders: seq<FolderState>, i: nat, c: nat)
    requires i <= c < |folders| && !folders[c].done && forall j :: i <= j < c ==> folders[j].done
    ensures Current(folders, i) == c
    decreases c - i
  {
    if i < c { CurrentIsFirst(folders, i + 1, c); }
  }

  lemma AllDoneIffNoCurrent(core: Core)
    ensures AllDone(core) <==> Current(core.folders, 0) == |core.folders|
  {
  }

  /** Once everything is done the walk stands still. */
  lemma {:induction false} DoneStaysDone(w: Job, k: nat, m: nat)
    requires AllDone(Walk(w, k)) && k <= m
    ensures Walk(w, m) == Walk(w, k)
    decreases m
  {
    if k < m {
      DoneStaysDone(w, k, m - 1);
      AllDoneIffNoCurrent(Walk(w, m - 1));
    }
  }

  /** All completed runs agree: however the work was cut into invocations, the result is that of the
      one idealised run with the same start time. */
  lemma CompletedRunsAgree(w: Job, k: nat, m: nat)
    requires AllDone(Walk(w, k)) && AllDone(Walk(w, m))
    ensures Walk(w, k) == Walk(w, m)
  {
    if k <= m {
      DoneStaysDone(w, k, m);
    } else {
      DoneStaysDone(w, m, k);
    }
  }

  // ----- the shape of every state on the walk -----

  /** A folder after its first n pages. */
  function FolderAt(w: Job, f: Folder, n: nat): Option<FolderState> {
    if n == 0 then Some(FreshFolder())
    else
      var before := FolderAt(w, f, n - 1);
      var page := w.page(f, n);
      if before.None? || before.value.done || page.Err? then None else Some(AddPage(before.value, page.value))
  }

  predicate OnWalk(w: Job, f: Folder, s: FolderState) {
    s.nextPage >= 1 && FolderAt(w, f, s.nextPage - 1) == Some(s)
  }

  predicate FoldersOnWalk(w: Job, core: Core) {
    |core.folders| == |w.folders| &&
    forall i :: 0 <= i < |core.folders| ==> OnWalk(w, w.folders[i], core.folders[i])
  }

  function SumPages(folders: seq<FolderState>): int {
    if folders == [] then 0 else SumPages(folders[..|folders| - 1]) + |folders[|folders| - 1].partitions|
  }

  function SumMessages(folders: seq<FolderState>): nat {
    if folders == [] then 0 else SumMessages(folders[..|folders| - 1]) + folders[|folders| - 1].messages
  }

  function SumBytes(folders: seq<FolderState>): nat {
    if folders == [] then 0 else SumBytes(folders[..|folders| - 1]) + folders[|folders| - 1].bytes
  }

  predicate MetricsAreSums(core: Core) {
    core.pages == SumPages(core.folders) && core.messages == SumMessages(core.folders)
        && core.bytes == SumBytes(core.folders)
  }

  lemma {:induction false} SumsAfterUpdate(folders: seq<FolderState>, i: nat, s: FolderState)
    requires i < |folders|
    ensures SumPages(folders[i := s]) == SumPages(folders) - |folders[i].partitions| + |s.partitions|
    ensures SumMessages(folders[i := s]) == SumMessages(folders) - folders[i].messages + s.messages
    ensures SumBytes(folders[i := s]) == SumBytes(folders) - folders[i].bytes + s.bytes
  {
    var front := folders[..|folders| - 1];
    if i == |folders| - 1 {
      assert folders[i := s][..|folders| - 1] == front;
    } else {
      assert folders[i := s][..|folders| - 1] == front[i := s];
      SumsAfterUpdate(front, i, s);
    }
  }

  lemma {:induction false} FreshSums(n: nat)
    ensures var unread := seq(n, _ => FreshFolder());
            SumPages(unread) == 0 && SumMessages(unread) == 0 && SumBytes(unread) == 0
  {
    if n > 0 {
      assert seq(n, _ => FreshFolder())[..n - 1] == seq(n - 1, _ => FreshFolder());
      FreshSums(n - 1);
    }
  }

  lemma CommitKeepsShape(w: Job, core: Core, i: nat, p: PageDone)
    requires FoldersOnWalk(w, core) && i < |core.folders| && !core.folders[i].done
    requires w.page(w.folders[i], core.folders[i].nextPage) == Ok(p)
    ensures FoldersOnWalk(w, Commit(core, i, p))
  {
    var next := Commit(core, i, p);
    forall j | 0 <= j < |next.folders| ensures OnWalk(w, w.folders[j], next.folders[j]) {
      assert OnWalk(w, w.folders[j], core.folders[j]);
    }
  }

  lemma CommitKeepsSums(core: Core, i: nat, p: PageDone)
    requires MetricsAreSums(core) && i < |core.folders|
    ensures MetricsAreSums(Commit(core, i, p))
  {
    SumsAfterUpdate(core.folders, i, AddPage(core.folders[i], p));
  }

  lemma AdvanceKeepsShape(w: Job, core: Core)
    requires FoldersOnWalk(w, core) && MetricsAreSums(core)
    ensures FoldersOnWalk(w, Advance(w, core)) && MetricsAreSums(Advance(w, core))
  {
    var next := NextPage(w, core);
    if next.Some? {
      var c := Current(core.folders, 0);
      CommitKeepsShape(w, core, c, next.value);
      CommitKeepsSums(core, c, next.value);
    }
  }

  lemma FreshOnWalk(w: Job)
    ensures FoldersOnWalk(w, FreshCore(w)) && MetricsAreSums(FreshCore(w))
  {
    FreshSums(|w.folders|);
  }

  /** In every state of the walk each folder holds exactly its pages 1 to next_page - 1 in order, and the
      metrics are the sums over the folders. */
  lemma {:induction false} WalkShape(w: Job, k: nat)
    ensures FoldersOnWalk(w, Walk(w, k)) && MetricsAreSums(Walk(w, k))
  {
    if k == 0 {
      FreshOnWalk(w);
    } else {
      WalkShape(w, k - 1);
      AdvanceKeepsShape(w, Walk(w, k - 1));
    }
  }

  /** What a folder state on the walk consists of, page by page. */
  lemma {:induction false} FolderPages(w: Job, f: Folder, n: nat)
    requires FolderAt(w, f, n).Some?
    ensures var s := FolderAt(w, f, n).value;
            && s.nextPage == n + 1 && |s.partitions| == n
            && (s.done <==> n > 0 && !w.page(f, n).value.hasMore)
            && (forall j | 1 <= j <= n :: w.page(f, j).Ok?
                                          && w.page(f, j).value.ref == s.partitions[j - 1])
            && (forall j | 1 <= j < n :: w.page(f, j).value.hasMore)
  {
    if n > 0 {
      FolderPages(w, f, n - 1);
    }
  }
}
