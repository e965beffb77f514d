/** One invocation of the index backfill: the checkpoint file, the published partition files and the
    root manifest, and the nested loops that read page after page with faults at every access. */
module BackfillRun {
  import opened Common
  import opened SearchProjection
  import opened BackfillWalk
  import opened SearchBackfill

  /** What an access may do instead of succeeding: a backend error stops the invocation in an orderly
      way, any other exception aborts it, and a crash ends the process on the spot. */
  datatype Fault = Fine | BackendError(stop: Stop) | Exception | Crash

  datatype Status = Running | Interrupted | Unfinished | Complete

  datatype Checkpoint = Checkpoint(fingerprint: string, startedAt: string, status: Status, core: Core,
                                   errors: seq<Stop>)

  /** How reading a page ends. */
  datatype PageEnd<T> = Done(value: T) | Stopped(stop: Stop) | Raised | Died

  /** How an access that does not succeed ends the reading; a backend error always has a name. */
  function Failed<T>(fault: Fault): (end: PageEnd<T>)
    requires fault != Fine
    ensures !end.Done? && (end.Stopped? <==> fault.BackendError?) && (end.Stopped? ==> end.stop != NoStop)
    ensures end.Died? <==> fault == Crash
  {
    match fault
    case BackendError(stop) => Stopped(if stop == NoStop then Backend("") else stop)
    case Exception => Raised
    case Crash => Died
  }

  datatype Report = Report(complete: bool, resumed: bool, stop: Stop, pages: nat, messages: nat, bytes: nat)

  class Backfill {
    const src: Source
    const limits: Limits
    var file: Option<Checkpoint>
    var published: set<Reference>
    var root: Option<Root<Incomplete>>

    constructor (src: Source, limits: Limits, file: Option<Checkpoint>, published: set<Reference>,
                 root: Option<Root<Incomplete>>)
      ensures this.src == src && this.limits == limits && this.file == file && this.published == published
                && this.root == root
    {
      this.src, this.limits, this.file, this.published, this.root := src, limits, file, published, root;
    }

    /** Every page of every folder state has its file. */
    ghost predicate AllPublished(core: Core)
      reads this
    {
      forall i, j :: 0 <= i < |core.folders| && 0 <= j < |core.folders[i].partitions| ==>
        core.folders[i].partitions[j] in published
    }

    /** The checkpoint is a state of the idealised run, and what it refers to is published. */
    ghost predicate OnTrack(core: Core, errors: seq<Stop>, startedAt: string)
      reads this
    {
      && core == Walk(JobOf(src, limits, startedAt), core.pages) && |errors| == |src.folders|
      && AllPublished(core)
    }

    /** A checkpoint of this configuration is on track; others are not looked at. */
    ghost predicate Valid()
      reads this
    {
      file.Some? && file.value.fingerprint == src.fingerprint ==>
        OnTrack(file.value.core, file.value.errors, file.value.startedAt)
    }

    predicate Resumes(restart: bool)
      reads this
    {
      file.Some? && !restart && file.value.fingerprint == src.fingerprint && file.value.status != Complete
    }

    /** The checks on one message, in order; the attachments are scanned until one fails. */
    method Judge(f: Folder, e: Envelope, raw: Raw) returns (fate: Fate)
      requires raw == src.raw(f, e)
      ensures fate == FateOf(src, limits, f, e)
    {
      if |raw| > limits.maxMessageBytes {
        return Held(Blocked(e.mailboxId, raw, TooLarge));
      }
      var scan := src.scan(raw);
      if !scan.clean {
        return Held(Blocked(e.mailboxId, raw, RawScan(scan.status)));
      }
      var failed, parts := "", [];
      match src.attachments(raw) {
        case Ok(list) => parts := list;
        case Err(kind) => failed := kind;
      }
      for j := 0 to |parts|
        invariant failed == "" || src.attachments(raw).Err?
        invariant FirstUnclean(src, parts) == FirstUnclean(src, parts[j..])
      {
        var part := src.scan(parts[j]);
        if !part.clean {
          failed := part.status;
          break;
        }
      }
      if failed != "" {
        return Held(Blocked(e.mailboxId, raw, Attachment(failed)));
      }
      match src.parse(raw, e) {
        case None => return Held(Blocked(e.mailboxId, raw, ParseError));
        case Some(content) => return Indexed(Occurrence(LocatorOf(src, f, e), raw, content));
      }
    }

    /** The messages do not fit into what is left of this budget. */
    predicate TooMuch(f: Folder, items: seq<Envelope>, usedMessages: nat, usedBytes: nat, stop: Stop) {
      match stop
      case MessageLimit => usedMessages + |items| > limits.maxMessages
      case ByteLimit => usedBytes + ScanAll(src, limits, f, items).bytes > limits.maxBytes
      case _ => false
    }

    lemma NextScan(f: Folder, items: seq<Envelope>, j: nat)
      requires j < |items|
      ensures ScanAll(src, limits, f, items[..j + 1])
              == AddMessage(ScanAll(src, limits, f, items[..j]), src.raw(f, items[j]), FateOf(src, limits, f, items[j]))
    {
      assert items[..j + 1][..j] == items[..j];
    }

    /** The loop over the messages of one page. */
    method ScanPage(f: Folder, items: seq<Envelope>, usedMessages: nat, usedBytes: nat, faults: nat -> Fault, t0: nat)
      returns (end: PageEnd<Scanned>, t: nat)
      requires usedMessages <= limits.maxMessages && usedBytes <= limits.maxBytes
      ensures end.Done? ==> end.value == ScanAll(src, limits, f, items)
                            && usedMessages + |items| <= limits.maxMessages
                            && usedBytes + end.value.bytes <= limits.maxBytes
      ensures end.Stopped? ==> end.stop != NoStop
      ensures (forall k :: faults(k) == Fine) ==>
                (end.Done? <==> usedMessages + |items| <= limits.maxMessages
                                && usedBytes + ScanAll(src, limits, f, items).bytes <= limits.maxBytes)
                && !end.Died? && !end.Raised? && (end.Stopped? ==> TooMuch(f, items, usedMessages, usedBytes, end.stop))
    {
      t := t0;
      var s := Scanned(0, [], []);
      for j := 0 to |items|
        invariant s == ScanAll(src, limits, f, items[..j])
        invariant usedMessages + j <= limits.maxMessages && usedBytes + s.bytes <= limits.maxBytes
      {
        if usedMessages + |s.occurrences| + |s.blocked| >= limits.maxMessages {
          return Stopped(MessageLimit), t;
        }
        if faults(t) != Fine {
          return Failed(faults(t)), t + 1;
        }
        t := t + 1;
        NextScan(f, items, j);
        var raw := src.raw(f, items[j]);
        if usedBytes + s.bytes + |raw| > limits.maxBytes {
          ScanMonotone(src, limits, f, items, j + 1);
          return Stopped(ByteLimit), t;
        }
        if faults(t) != Fine {
          return Failed(faults(t)), t + 1;
        }
        t := t + 1;
        var fate := Judge(f, items[j], raw);
        s := AddMessage(s, raw, fate);
      }
      assert items[..|items|] == items;
      end := Done(s);
    }

    predicate Fits(p: PageDone, usedMessages: nat, usedBytes: nat) {
      usedMessages + p.messages <= limits.maxMessages && usedBytes + p.bytes <= limits.maxBytes
    }

    /** Fetching, scanning and publishing page n of a folder. */
    method ReadPage(startedAt: string, f: Folder, n: nat, usedMessages: nat, usedBytes: nat, faults: nat -> Fault,
                    t0: nat)
      returns (end: PageEnd<PageDone>, t: nat)
      requires usedMessages <= limits.maxMessages && usedBytes <= limits.maxBytes
      modifies this`published
      ensures old(published) <= published
      ensures end.Done? ==> PageOf(src, limits, startedAt, f, n) == Ok(end.value) && end.value.ref in published
                            && Fits(end.value, usedMessages, usedBytes)
      ensures end.Stopped? ==> end.stop != NoStop
      ensures (forall k :: faults(k) == Fine) ==>
                (end.Done? <==> PageOf(src, limits, startedAt, f, n).Ok?
                                && Fits(PageOf(src, limits, startedAt, f, n).value, usedMessages, usedBytes))
                && !end.Died? && (end.Raised? ==> PageOf(src, limits, startedAt, f, n).Err?)
                && (end.Stopped? ==> TooMuch(f, src.page(f, n).items, usedMessages, usedBytes, end.stop))
    {
      t := t0;
      if faults(t) != Fine {
        return Failed(faults(t)), t + 1;
      }
      var page := src.page(f, n);
      var scanned;
      scanned, t := ScanPage(f, page.items, usedMessages, usedBytes, faults, t + 1);
      match scanned {
        case Stopped(stop) => return Stopped(stop), t;
        case Raised => return Raised, t;
        case Died => return Died, t;
        case Done(s) =>
          if faults(t) != Fine {
            return Failed(faults(t)), t + 1;
          }
          t := t + 1;
          match Publication(src, startedAt, f, n, page.items, s) {
            case Err(_) => return Raised, t;
            case Ok(ref) =>
              published := published + {ref};
              end := Done(PageDone(ref, |page.items|, s.bytes, s.blocked, page.hasMore));
          }
      }
    }

    // ----- the loops over folders and pages -----

    /** The file holds this state. */
    predicate Saved(core: Core, errors: seq<Stop>, startedAt: string)
      reads this
    {
      file.Some? && file.value.fingerprint == src.fingerprint && file.value.startedAt == startedAt
      && file.value.core == core && file.value.errors == errors
    }

    /** The later state is at most one invocation's budget ahead. */
    predicate WithinBudget(start: Core, core: Core) {
      && start.pages <= core.pages <= start.pages + limits.maxPages
      && start.messages <= core.messages <= start.messages + limits.maxMessages
      && start.bytes <= core.bytes <= start.bytes + limits.maxBytes
    }

    /** Whether a fresh invocation can take the next page at all. */
    predicate NextFits(startedAt: string, core: Core)
      requires |core.folders| == |src.folders|
    {
      var next := NextPage(JobOf(src, limits, startedAt), core);
      next.Some? && Fits(next.value, 0, 0)
    }

    /** The next page cannot be published, so no invocation gets past it. */
    predicate Stuck(startedAt: string, core: Core)
      requires |core.folders| == |src.folders|
    {
      !AllDone(core) && NextPage(JobOf(src, limits, startedAt), core).None?
    }

    /** Committing a page to memory and then to the file; a failing write leaves the file as it was. */
    method CommitPage(startedAt: string, i: nat, core: Core, errors: seq<Stop>, p: PageDone, faults: nat -> Fault,
                      t0: nat)
      returns (end: PageEnd<PageDone>, next: Core, nextErrors: seq<Stop>, t: nat)
      requires i < |core.folders| == |errors| && Saved(core, errors, startedAt)
      modifies this`file
      ensures (next == core && nextErrors == errors) || (next == Commit(core, i, p)
                                                         && nextErrors == errors[i := NoStop])
      ensures Saved(next, nextErrors, startedAt) || (Saved(core, errors, startedAt) && (end.Raised? || end.Died?))
      ensures end.Done? ==> next == Commit(core, i, p) && end.value == p
      ensures end.Stopped? ==> next == core && nextErrors == errors && end.stop != NoStop
      ensures (forall k :: faults(k) == Fine) ==> end.Done?
    {
      if faults(t0) != Fine {
        return Failed(faults(t0)), core, errors, t0 + 1;
      }
      t := t0 + 2;
      next := Commit(core, i, p);
      nextErrors := errors[i := NoStop];
      match faults(t0 + 1) {
        case Crash => return Died, next, nextErrors, t;
        case Exception => return Raised, next, nextErrors, t;
        case BackendError(_) => return Raised, next, nextErrors, t;
        case Fine =>
      }
      file := Some(Checkpoint(src.fingerprint, startedAt, Running, next, nextErrors));
      end := Done(p);
    }

    lemma CommitOnTrack(startedAt: string, i: nat, core: Core, errors: seq<Stop>, p: PageDone)
      requires OnTrack(core, errors, startedAt) && p.ref in published
      requires i < |core.folders| && !core.folders[i].done && forall j :: 0 <= j < i ==> core.folders[j].done
      requires PageOf(src, limits, startedAt, src.folders[i], core.folders[i].nextPage) == Ok(p)
      ensures OnTrack(Commit(core, i, p), errors[i := NoStop], startedAt)
    {
      CommitFollowsWalk(src, limits, startedAt, core, i, p);
    }

    /** One page of folder i: read, commit, checkpoint.  The result is the state in memory. */
    method TakePage(startedAt: string, i: nat, core: Core, errors: seq<Stop>, usedMessages: nat, usedBytes: nat,
                    faults: nat -> Fault, t0: nat)
      returns (end: PageEnd<PageDone>, next: Core, nextErrors: seq<Stop>, t: nat)
      requires OnTrack(core, errors, startedAt) && Saved(core, errors, startedAt)
      requires i < |core.folders| && !core.folders[i].done && forall j :: 0 <= j < i ==> core.folders[j].done
      requires usedMessages <= limits.maxMessages && usedBytes <= limits.maxBytes
      modifies this`published, this`file
      ensures old(published) <= published
      ensures OnTrack(next, nextErrors, startedAt)
      ensures Saved(next, nextErrors, startedAt) || (Saved(core, errors, startedAt) && (end.Raised? || end.Died?))
      ensures next == core || exists p :: next == Commit(core, i, p) && Fits(p, usedMessages, usedBytes)
      ensures end.Done? ==> next == Commit(core, i, end.value) && Fits(end.value, usedMessages, usedBytes)
      ensures end.Stopped? ==> next == core && nextErrors == errors && end.stop != NoStop
      ensures (forall k :: faults(k) == Fine) ==>
                var p := NextPage(JobOf(src, limits, startedAt), core);
                !end.Died? && (end.Done? <==> p.Some? && Fits(p.value, usedMessages, usedBytes))
                    && (!end.Done? ==> next == core) && (end.Raised? ==> p.None?)
                    && (end.Stopped? ==> TooMuch(src.folders[i],
                                                 src.page(src.folders[i], core.folders[i].nextPage).items,
                                                 usedMessages, usedBytes, end.stop))
    {
      next, nextErrors := core, errors;
      end, t := ReadPage(startedAt, src.folders[i], core.folders[i].nextPage, usedMessages, usedBytes, faults, t0);
      UnpublishableStops(src, limits, startedAt, core, i);
      if end.Done? {
        CommitOnTrack(startedAt, i, core, errors, end.value);
        end, next, nextErrors, t := CommitPage(startedAt, i, core, errors, end.value, faults, t);
      }
    }

    /** The state an exception leaves: the handler tries to save what is in memory. */
    method SaveInterrupted(startedAt: string, core: Core, errors: seq<Stop>, fault: Fault)
      modifies this`file
      ensures file == old(file) || (Saved(core, errors, startedAt) && file.value.status == Interrupted)
      ensures fault == Fine ==> Saved(core, errors, startedAt)
    {
      if fault == Fine {
        file := Some(Checkpoint(src.fingerprint, startedAt, Interrupted, core, errors));
      }
    }

    /** Memory and file agree, on track and within the budget of this invocation. */
    ghost predicate InStep(startedAt: string, start: Core, core: Core, errors: seq<Stop>)
      reads this
    {
      && OnTrack(core, errors, startedAt) && Saved(core, errors, startedAt)
      && WithinBudget(start, core) && (core.pages == start.pages ==> core == start)
    }

    /** How the file may be left: a state on the walk, within the budget. */
    ghost predicate LeftOnTrack(startedAt: string, start: Core)
      reads this
    {
      && file.Some? && file.value.startedAt == startedAt && file.value.fingerprint == src.fingerprint
      && OnTrack(file.value.core, file.value.errors, startedAt) && WithinBudget(start, file.value.core)
    }

    /** A budget of this invocation is spent, or the next page does not fit into what is left of it. */
    predicate StopIsTrue(start: Core, core: Core, stop: Stop)
      requires |core.folders| == |src.folders|
    {
      var c, messages, bytes := Current(core.folders, 0), core.messages - start.messages, core.bytes - start.bytes;
      match stop
      case PageLimit => core.pages - start.pages >= limits.maxPages
      case MessageLimit => messages >= limits.maxMessages || NextIsTooMuch(c, core, messages, bytes, stop)
      case _ => NextIsTooMuch(c, core, messages, bytes, stop)
    }

    predicate NextIsTooMuch(c: nat, core: Core, messages: int, bytes: int, stop: Stop)
      requires |core.folders| == |src.folders|
    {
      c < |core.folders| && messages >= 0 && bytes >= 0
      && TooMuch(src.folders[c], src.page(src.folders[c], core.folders[c].nextPage).items, messages, bytes, stop)
    }

    /** One turn of the inner loop. */
    method Turn(startedAt: string, start: Core, i: nat, core: Core, errors: seq<Stop>, faults: nat -> Fault, t0: nat,
                ghost fits: bool)
      returns (end: PageEnd<()>, next: Core, nextErrors: seq<Stop>, t: nat)
      requires InStep(startedAt, start, core, errors)
      requires i < |core.folders| && !core.folders[i].done && forall j :: 0 <= j < i ==> core.folders[j].done
      requires limits.maxPages >= 1 && limits.maxMessages >= 1
      requires |start.folders| == |src.folders| && fits == NextFits(startedAt, start)
      modifies this`published, this`file
      ensures old(published) <= published
      ensures end.Done? || end.Stopped? ==> InStep(startedAt, start, next, nextErrors)
      ensures LeftOnTrack(startedAt, start)
      ensures |next.folders| == |core.folders|
      ensures end.Done? ==> next.pages == core.pages + 1 && core.pages - start.pages < limits.maxPages
                            && forall j :: 0 <= j < i ==> next.folders[j].done
      ensures end.Stopped? ==> next == core && end.stop != NoStop
      ensures (forall k :: faults(k) == Fine) && core == start ==>
                !end.Died? && (end.Done? <==> fits)
      ensures (forall k :: faults(k) == Fine) ==>
                !end.Died? && (end.Done? || next == core) && Saved(next, nextErrors, startedAt)
                && (end.Raised? ==> |next.folders| == |src.folders| && Stuck(startedAt, next))
                && (end.Stopped? ==> |next.folders| == |src.folders| && StopIsTrue(start, next, end.stop))
    {
      CurrentIsFirst(core.folders, 0, i);
      var pages, messages, bytes := core.pages - start.pages, core.messages - start.messages, core.bytes - start.bytes;
      if pages >= limits.maxPages {
        return Stopped(PageLimit), core, errors, t0;
      }
      if messages >= limits.maxMessages {
        return Stopped(MessageLimit), core, errors, t0;
      }
      var read;
      read, next, nextErrors, t := TakePage(startedAt, i, core, errors, messages, bytes, faults, t0);
      match read {
        case Done(_) => end := Done(());
        case Stopped(stop) => end := Stopped(stop);
        case Raised =>
          SaveInterrupted(startedAt, next, nextErrors, faults(t));
          t := t + 1;
          end := Raised;
        case Died => end := Died;
      }
    }

    /** The loop over the pages of folder i. */
    method CrawlFolder(startedAt: string, start: Core, i: nat, core0: Core, errors0: seq<Stop>,
                       faults: nat -> Fault, t0: nat, ghost fits: bool)
      returns (end: PageEnd<()>, core: Core, errors: seq<Stop>, t: nat)
      requires InStep(startedAt, start, core0, errors0)
      requires i < |core0.folders| && forall j :: 0 <= j < i ==> core0.folders[j].done
      requires limits.maxPages >= 1 && limits.maxMessages >= 1
      requires (forall k :: faults(k) == Fine) && core0.pages > start.pages ==> fits
      requires |start.folders| == |src.folders| && fits == NextFits(startedAt, start)
      modifies this`published, this`file
      ensures old(published) <= published && LeftOnTrack(startedAt, start)
      ensures end.Done? || end.Stopped? ==> InStep(startedAt, start, core, errors)
      ensures |core.folders| == |core0.folders|
      ensures end.Done? ==> forall j :: 0 <= j <= i ==> core.folders[j].done
      ensures end.Stopped? ==> !AllDone(core) && end.stop != NoStop
      ensures (forall k :: faults(k) == Fine) ==>
                !end.Died? && Saved(core, errors, startedAt) && (core.pages > start.pages ==> fits)
                && (end.Done? || (fits ==> core.pages > start.pages))
                && (end.Raised? ==> |core.folders| == |src.folders| && Stuck(startedAt, core))
                && (end.Stopped? ==> |core.folders| == |src.folders| && StopIsTrue(start, core, end.stop))
    {
      core, errors, t := core0, errors0, t0;
      while !core.folders[i].done
        invariant InStep(startedAt, start, core, errors) && old(published) <= published
        invariant |core.folders| == |core0.folders| && forall j | 0 <= j < i :: core.folders[j].done
        invariant (forall k :: faults(k) == Fine) && core.pages > start.pages ==> fits
        decreases limits.maxPages - (core.pages - start.pages)
      {
        end, core, errors, t := Turn(startedAt, start, i, core, errors, faults, t, fits);
        if !end.Done? {
          return;
        }
      }
      end := Done(());
    }

    /** The loop over the folders. */
    method Crawl(startedAt: string, start: Core, startErrors: seq<Stop>, faults: nat -> Fault, t0: nat)
      returns (end: PageEnd<()>, core: Core, errors: seq<Stop>, t: nat)
      requires OnTrack(start, startErrors, startedAt) && Saved(start, startErrors, startedAt)
      requires limits.maxPages >= 1 && limits.maxMessages >= 1
      modifies this`published, this`file
      ensures old(published) <= published && LeftOnTrack(startedAt, start)
      ensures end.Done? || end.Stopped? ==> InStep(startedAt, start, core, errors)
      ensures end.Done? ==> AllDone(core)
      ensures end.Stopped? ==> !AllDone(core) && end.stop != NoStop
      ensures (forall k :: faults(k) == Fine) ==>
                !end.Died? && Saved(core, errors, startedAt)
                    && (core.pages > start.pages <==> NextFits(startedAt, start))
                    && (end.Raised? ==> |core.folders| == |src.folders| && Stuck(startedAt, core))
                    && (end.Stopped? ==> |core.folders| == |src.folders| && StopIsTrue(start, core, end.stop))
    {
      ghost var fits := NextFits(startedAt, start);
      core, errors, t := start, startErrors, t0;
      for i := 0 to |src.folders|
        invariant InStep(startedAt, start, core, errors) && old(published) <= published
        invariant forall j | 0 <= j < i :: core.folders[j].done
        invariant (forall k :: faults(k) == Fine) && core.pages > start.pages ==> fits
      {
        end, core, errors, t := CrawlFolder(startedAt, start, i, core, errors, faults, t, fits);
        if !end.Done? {
          return;
        }
      }
      end := Done(());
      NothingNext(startedAt, core);
    }

    lemma NothingNext(startedAt: string, core: Core)
      requires |core.folders| == |src.folders| && AllDone(core)
      ensures !NextFits(startedAt, core)
    {
      AllDoneIffNoCurrent(core);
    }

    /** The stop is noted at the first folder that is not done. */
    function MarkStop(core: Core, errors: seq<Stop>, stop: Stop): seq<Stop>
      requires |core.folders| == |errors|
    {
      var c := Current(core.folders, 0);
      if stop == NoStop || c == |errors| then errors else errors[c := stop]
    }

    /** Publishing the manifest with the collected lists; it is complete exactly when they are. */
    static method PublishCoverage(c: Coverage, startedAt: string)
      returns (r: Result<Root<Incomplete>, ProjectionError>, complete: bool)
      ensures r == RootFrom(c, startedAt) && (r.Ok? ==> r.value.complete == complete)
    {
      complete := c.allDone && c.allCovered;
      r := PublishRoot(c.refs, c.expected, complete, complete, Without(c.expected, CoveredIds(c.refs)), c.reasons,
                       startedAt);
    }

    lemma ManifestIsAccepted(startedAt: string, core: Core, errors: seq<Stop>, stop: Stop)
      requires core == Walk(JobOf(src, limits, startedAt), core.pages) && |errors| == |src.folders|
                 && GoodFolders(src.folders)
      ensures var r := RootOf(src.folders, core.folders, errors, stop, startedAt);
              r.Ok? && ManifestOf(startedAt, core, errors, stop, r.value)
    {
      WalkOwnsIds(src, limits, startedAt, core.pages);
      RootIsAccepted(src.folders, core.folders, errors, stop, startedAt);
    }

    /** The arguments of the manifest pass its guards, so publishing it cannot fail. */
    method BuildManifest(startedAt: string, core: Core, errors: seq<Stop>, stop: Stop)
      returns (manifest: Root<Incomplete>, complete: bool)
      requires core == Walk(JobOf(src, limits, startedAt), core.pages) && |errors| == |src.folders|
                 && GoodFolders(src.folders)
      ensures ManifestOf(startedAt, core, errors, stop, manifest) && complete == manifest.complete
    {
      var c := CollectCoverage(src.folders, core.folders, errors, stop);
      ManifestIsAccepted(startedAt, core, errors, stop);
      var r;
      r, complete := PublishCoverage(c, startedAt);
      manifest := r.value;
    }

    /** The manifest says exactly what was read. */
    ghost predicate ManifestOf(startedAt: string, core: Core, errors: seq<Stop>, stop: Stop, manifest: Root<Incomplete>)
      requires |core.folders| == |errors| == |src.folders|
    {
      && RootOf(src.folders, core.folders, errors, stop, startedAt) == Ok(manifest)
      && Exact(manifest, CoverageOf(src.folders, core.folders, errors, stop, |src.folders|).refs, src.folders,
               core.folders)
    }

    /** The end of an invocation: collect the coverage, publish the manifest, save the checkpoint. */
    method Conclude(startedAt: string, core: Core, errors: seq<Stop>, stop: Stop, faults: nat -> Fault, t0: nat)
      returns (end: PageEnd<bool>)
      requires OnTrack(core, errors, startedAt) && Saved(core, errors, startedAt) && GoodFolders(src.folders)
      modifies this`root, this`file
      ensures SavedCore(core, startedAt)
      ensures end.Done? ==> root.Some? && Concluded(startedAt, core, errors, stop, end.value, root.value)
      ensures !end.Stopped? && ((forall k :: faults(k) == Fine) ==> end.Done?)
    {
      var marked := MarkStop(core, errors, stop);
      var manifest, complete := BuildManifest(startedAt, core, marked, stop);
      if faults(t0) != Fine {
        return if faults(t0) == Crash then Died else Raised;
      }
      root := Some(manifest);
      if faults(t0 + 1) != Fine {
        return if faults(t0 + 1) == Crash then Died else Raised;
      }
      file := Some(Checkpoint(src.fingerprint, startedAt, if complete then Complete else Unfinished, core, marked));
      end := Done(complete);
    }

    predicate SavedCore(core: Core, startedAt: string)
      reads this
    {
      file.Some? && file.value.fingerprint == src.fingerprint && file.value.startedAt == startedAt
          && file.value.core == core
      && |file.value.errors| == |src.folders|
    }

    /** What a concluded invocation leaves: the manifest of exactly what was read. */
    ghost predicate Concluded(startedAt: string, core: Core, errors: seq<Stop>, stop: Stop, complete: bool,
                              manifest: Root<Incomplete>)
      requires |core.folders| == |errors| == |src.folders|
      reads this
    {
      var marked := MarkStop(core, errors, stop);
      && ManifestOf(startedAt, core, marked, stop, manifest) && complete == manifest.complete
      && file == Some(Checkpoint(src.fingerprint, startedAt, if complete then Complete else Unfinished, core, marked))
    }

    // ----- the whole invocation -----

    /** The saved state to continue from, or a fresh one that is saved first. */
    method Prepare(restart: bool, now: string, faults: nat -> Fault)
      returns (end: PageEnd<bool>, startedAt: string, start: Core, errors: seq<Stop>)
      requires Valid()
      modifies this`file
      ensures end.Done? ==> (startedAt, start) == old(StartOf(restart, now)) && end.value == old(Resumes(restart))
                            && OnTrack(start, errors, startedAt) && Saved(start, errors, startedAt)
      ensures !end.Done? ==> file == old(file)
      ensures !end.Stopped? && ((forall k :: faults(k) == Fine) ==> end.Done?)
    {
      startedAt, start, errors := now, FreshCore(JobOf(src, limits, now)), seq(|src.folders|, _ => NoStop);
      if faults(0) != Fine {
        return if faults(0) == Crash then Died else Raised, startedAt, start, errors;
      }
      var resumed := Resumes(restart);
      if resumed {
        startedAt, start, errors := file.value.startedAt, file.value.core, file.value.errors;
      } else {
        if faults(1) != Fine {
          return if faults(1) == Crash then Died else Raised, startedAt, start, errors;
        }
        file := Some(Checkpoint(src.fingerprint, startedAt, Running, start, errors));
      }
      end := Done(resumed);
    }

    /** The reason that the report gives is true. */
    predicate StoppedRightly(start: Core, r: Report)
      reads this
    {
      && file.Some? && |file.value.core.folders| == |src.folders|
      && (r.stop == NoStop || StopIsTrue(start, file.value.core, r.stop))
    }

    /** Crawl from the prepared state and conclude. */
    method Work(startedAt: string, start: Core, errors0: seq<Stop>, resumed: bool, faults: nat -> Fault)
      returns (end: PageEnd<Report>)
      requires OnTrack(start, errors0, startedAt) && Saved(start, errors0, startedAt)
      requires GoodFolders(src.folders) && limits.maxPages >= 1 && limits.maxMessages >= 1
      modifies this`file, this`published, this`root
      ensures old(published) <= published && LeftOnTrack(startedAt, start)
      ensures end.Done? ==> Reported(startedAt, start, end.value) && end.value.resumed == resumed
      ensures (forall k :: faults(k) == Fine) ==>
                (file.value.core.pages > start.pages <==> NextFits(startedAt, start))
                && (if end.Done? then StoppedRightly(start, end.value) else Stuck(startedAt, file.value.core))
      ensures !end.Stopped?
    {
      var crawl, core, errors, t := Crawl(startedAt, start, errors0, faults, 2);
      if crawl.Raised? || crawl.Died? {
        return if crawl.Died? then Died else Raised;
      }
      var stop := if crawl.Stopped? then crawl.stop else NoStop;
      end := Close(startedAt, start, core, errors, stop, resumed, faults, t);
    }

    /** A concluded invocation has the report that belongs to it. */
    lemma ConcludedIsReported(startedAt: string, start: Core, core: Core, errors: seq<Stop>, stop: Stop, resumed: bool,
                              complete: bool)
      requires LeftOnTrack(startedAt, start) && file.value.core == core && |core.folders| == |errors| == |src.folders|
      requires root.Some? && Concluded(startedAt, core, errors, stop, complete, root.value)
      requires stop == NoStop <==> AllDone(core)
      requires core.pages >= start.pages && core.messages >= start.messages && core.bytes >= start.bytes
      ensures Reported(startedAt, start, Report(complete, resumed, stop, core.pages - start.pages,
                                                core.messages - start.messages, core.bytes - start.bytes))
    {
    }

    /** The end of an invocation that was not aborted. */
    method Close(startedAt: string, start: Core, core: Core, errors: seq<Stop>, stop: Stop, resumed: bool,
                 faults: nat -> Fault, t: nat)
      returns (end: PageEnd<Report>)
      requires InStep(startedAt, start, core, errors) && GoodFolders(src.folders) && (stop == NoStop <==> AllDone(core))
      modifies this`file, this`root
      ensures LeftOnTrack(startedAt, start) && file.value.core == core
      ensures end.Done? ==> Reported(startedAt, start, end.value) && end.value.resumed == resumed
                            && end.value.stop == stop
      ensures end.Done? && (stop == NoStop || StopIsTrue(start, core, stop)) ==> StoppedRightly(start, end.value)
      ensures !end.Stopped? && ((forall k :: faults(k) == Fine) ==> end.Done?)
    {
      var done := Conclude(startedAt, core, errors, stop, faults, t);
      assert LeftOnTrack(startedAt, start);
      match done {
        case Done(complete) =>
          ConcludedIsReported(startedAt, start, core, errors, stop, resumed, complete);
          end := Done(Report(complete, resumed, stop, core.pages - start.pages, core.messages - start.messages,
                             core.bytes - start.bytes));
        case Died => end := Died;
        case _ => end := Raised;
      }
    }

    /** One invocation.  `now` is the time at its start, `faults` what goes wrong. */
    method Run(restart: bool, now: string, faults: nat -> Fault) returns (end: PageEnd<Report>)
      requires Valid() && GoodFolders(src.folders) && limits.maxPages >= 1 && limits.maxMessages >= 1
      modifies this`file, this`published, this`root
      ensures Valid() && old(published) <= published
      ensures var (startedAt, start) := old(StartOf(restart, now));
              && (file == old(file) || LeftOnTrack(startedAt, start))
              && (end.Done? ==> Reported(startedAt, start, end.value) && end.value.resumed == old(Resumes(restart)))
              && ((forall k :: faults(k) == Fine) ==>
                    LeftOnTrack(startedAt, start) && |file.value.core.folders| == |src.folders|
                    && (file.value.core.pages > start.pages <==> NextFits(startedAt, start))
                    && (if end.Done? then StoppedRightly(start, end.value) else Stuck(startedAt, file.value.core)))
      ensures !end.Stopped?
    {
      var prepared, startedAt, start, errors := Prepare(restart, now, faults);
      if !prepared.Done? {
        return if prepared.Died? then Died else Raised;
      }
      end := Work(startedAt, start, errors, prepared.value, faults);
    }

    /** Where an invocation starts: at the saved state of an unfinished run, or afresh. */
    function StartOf(restart: bool, now: string): (string, Core)
      reads this
    {
      if Resumes(restart) then (file.value.startedAt, file.value.core) else (now, FreshCore(JobOf(src, limits, now)))
    }

    /** What a report says about the files: the counters are the differences, and the manifest is that of
        the saved state; without a stop reason everything was read. */
    ghost predicate Reported(startedAt: string, start: Core, r: Report)
      reads this
    {
      && LeftOnTrack(startedAt, start) && root.Some?
      && var core := file.value.core;
      && r.pages == core.pages - start.pages && r.messages == core.messages - start.messages
          && r.bytes == core.bytes - start.bytes
      && (r.stop == NoStop <==> AllDone(core)) && (r.complete ==> AllDone(core))
      && (r.stop != NoStop ==> var c := Current(core.folders, 0);
                               c < |file.value.errors| && file.value.errors[c] == r.stop)
      && ManifestOf(startedAt, core, file.value.errors, r.stop, root.value)
      && r.complete == root.value.complete
      && file.value.status == (if r.complete then Complete else Unfinished)
    }
  }

  /** However two backfills of the same mailbox were cut into invocations, stopped, aborted and resumed:
      once the last invocation of each reports no stop, and they had the same start time, their
      checkpoints and their manifests are the same. */
  lemma FinishedBackfillsAgree(a: Backfill, b: Backfill, startedAt: string, aStart: Core, aLast: Report, bStart: Core,
                               bLast: Report)
    requires a.src == b.src && a.limits == b.limits
    requires a.Reported(startedAt, aStart, aLast) && aLast.stop == NoStop
    requires b.Reported(startedAt, bStart, bLast) && bLast.stop == NoStop
    ensures a.file.value.core == b.file.value.core && a.root == b.root && aLast.complete == bLast.complete
  {
    var x, y := a.file.value, b.file.value;
    CutUpRunsAgree(a.src, a.limits, startedAt, x.core.pages, x.errors, aLast.stop, y.core.pages, y.errors, bLast.stop);
  }
}
