/** What a drain counts: every message it lists is counted, skipped, lost or reported exactly once, so that a
    drain that does less than its lists hold would not pass for one that worked. */
module DrainCounts {
  import opened Common
  import opened Drain
  import opened DrainBounds

  // ----- the messages of a folder -----

  /** What becomes of a listed message when the folder is not aborted at it. */
  datatype Kind = Finishes | Vanishes | LosesRecord | Unread | Breaks

  function KindOf(m: Examined): Kind {
    match m
    case Gone => Vanishes
    case Unreadable => Unread
    case Blocked(_, _) => Finishes
    case Unrecorded => LosesRecord
    case Settled(_) => Finishes
    case Restored(budget, _) => if budget then Breaks else Finishes
    case Throws(_) => Breaks
    case Waiting => Finishes
  }

  /** How many of the messages k to n are of this kind. */
  function Number(cfg: Settings, f: FolderEnv, k: nat, n: nat, kind: Kind): nat
    decreases n - k
  {
    if k >= n then 0
    else (if KindOf(Happens(cfg, f.message(k))) == kind then 1 else 0) + Number(cfg, f, k + 1, n, kind)
  }

  lemma {:induction false} KindsAddUp(cfg: Settings, f: FolderEnv, k: nat, n: nat)
    requires k <= n
    ensures Number(cfg, f, k, n, Finishes) + Number(cfg, f, k, n, Vanishes) + Number(cfg, f, k, n, LosesRecord)
            + Number(cfg, f, k, n, Unread) + Number(cfg, f, k, n, Breaks) == n - k
    decreases n - k
  {
    if k < n { KindsAddUp(cfg, f, k + 1, n); }
  }

  lemma NumberOfNone(cfg: Settings, f: FolderEnv, k: nat)
    ensures Number(cfg, f, k, k, Finishes) == Number(cfg, f, k, k, Vanishes) == Number(cfg, f, k, k, LosesRecord) == 0
    ensures Number(cfg, f, k, k, Unread) == Number(cfg, f, k, k, Breaks) == 0
  {
  }

  /** From t to u the messages k to n were handled, and `more` messages that were waiting before. */
  predicate Handled(cfg: Settings, f: FolderEnv, k: nat, n: nat, more: nat, t: Tally, u: Tally) {
    && u.processed == t.processed + more + Number(cfg, f, k, n, Finishes)
    && u.skipped == t.skipped + Number(cfg, f, k, n, Vanishes)
    && u.lost == t.lost + Number(cfg, f, k, n, LosesRecord)
    && u.acted - t.acted == u.processed - t.processed + u.lost - t.lost
    && u.errors >= t.errors + Number(cfg, f, k, n, Unread) + Number(cfg, f, k, n, LosesRecord)
    && Number(cfg, f, k, n, Breaks) == 0
  }

  lemma {:induction false} RouteCounts(f: FolderEnv, k: nat, n: nat, j: nat, t: Tally)
    requires j <= n && t.end == Going
    ensures var u := RouteFrom(f, k, n, j, t);
            && u.skipped == t.skipped && u.lost == t.lost && u.errors >= t.errors
            && (u.end == Going ==> u.processed - t.processed == u.acted - t.acted == n - j)
    decreases n - j
  {
    if j < n {
      var u := if f.routed(k, j).Works? then Counted(t, f.routed(k, j).ok) else t.(acted := t.acted + 1, end := Threw);
      if u.end == Going { RouteCounts(f, k, n, j + 1, u); }
    }
  }

  lemma GroupCounts(f: FolderEnv, k: nat, n: nat, t: Tally)
    requires t.end == Going && RouteGroup(f, k, n, t).end == Going
    ensures var u := RouteGroup(f, k, n, t);
            && u.processed == t.processed + n && u.acted == t.acted + n
            && u.skipped == t.skipped && u.lost == t.lost && u.errors >= t.errors
  {
    RouteCounts(f, k, n, 0, t);
  }

  lemma ExamineCounts(cfg: Settings, f: FolderEnv, k: nat, t: Tally)
    requires t.end == Going && !Happens(cfg, f.message(k)).Waiting?
    requires ExamineOf(Happens(cfg, f.message(k)), t).end == Going
    ensures Handled(cfg, f, k, k + 1, 0, t, ExamineOf(Happens(cfg, f.message(k)), t))
  {
    NumberOfNone(cfg, f, k + 1);
  }

  lemma OneThenMore(cfg: Settings, f: FolderEnv, k: nat, n: nat, more: nat, t: Tally, u: Tally, v: Tally)
    requires k < n && Handled(cfg, f, k, k + 1, 0, t, u) && Handled(cfg, f, k + 1, n, more, u, v)
    ensures Handled(cfg, f, k, n, more, t, v)
  {
    forall kind ensures Number(cfg, f, k, n, kind) == Number(cfg, f, k, k + 1, kind) + Number(cfg, f, k + 1, n, kind) {
      assert Number(cfg, f, k + 1, k + 1, kind) == 0;
    }
  }

  /** A folder that is not aborted handles every listed message once, and counts the waiting ones. */
  lemma {:induction false} FolderHandles(cfg: Settings, f: FolderEnv, n: nat, k: nat, waiting: nat, t: Tally)
    requires k <= n && t.end == Going && FolderFrom(cfg, f, n, k, waiting, t).end == Going
    ensures Handled(cfg, f, k, n, waiting, t, FolderFrom(cfg, f, n, k, waiting, t))
    decreases n - k
  {
    var v := FolderFrom(cfg, f, n, k, waiting, t);
    if k == n {
      if waiting > 0 { GroupCounts(f, n, waiting, t); }
    } else if !Happens(cfg, f.message(k)).Waiting? {
      var u := ExamineOf(Happens(cfg, f.message(k)), t);
      ExamineCounts(cfg, f, k, t);
      FolderHandles(cfg, f, n, k + 1, waiting, u);
      OneThenMore(cfg, f, k, n, waiting, t, u, v);
    } else if waiting + 1 >= cfg.prefetch {
      var u := RouteGroup(f, k, waiting + 1, t);
      GroupCounts(f, k, waiting + 1, t);
      FolderHandles(cfg, f, n, k + 1, 0, u);
    } else {
      FolderHandles(cfg, f, n, k + 1, waiting + 1, t);
    }
  }

  // ----- stretches of several folders -----

  /** The first n messages of a folder. */
  datatype Stretch = Stretch(f: FolderEnv, n: nat)

  function Total(cfg: Settings, trace: seq<Stretch>, kind: Kind): nat {
    if trace == [] then 0
    else
      var last := trace[|trace| - 1];
      Total(cfg, trace[..|trace| - 1], kind) + Number(cfg, last.f, 0, last.n, kind)
  }

  function Messages(trace: seq<Stretch>): nat {
    if trace == [] then 0 else Messages(trace[..|trace| - 1]) + trace[|trace| - 1].n
  }

  /** From t to u exactly these stretches were handled. */
  predicate HandledAll(cfg: Settings, t: Tally, u: Tally, trace: seq<Stretch>) {
    && u.processed == t.processed + Total(cfg, trace, Finishes)
    && u.skipped == t.skipped + Total(cfg, trace, Vanishes)
    && u.lost == t.lost + Total(cfg, trace, LosesRecord)
    && u.acted - t.acted == u.processed - t.processed + u.lost - t.lost
    && u.errors >= t.errors + Total(cfg, trace, Unread) + Total(cfg, trace, LosesRecord)
    && Total(cfg, trace, Breaks) == 0
  }

  lemma HandledOneMore(cfg: Settings, t: Tally, u: Tally, v: Tally, trace: seq<Stretch>, s: Stretch)
    requires HandledAll(cfg, t, u, trace) && Handled(cfg, s.f, 0, s.n, 0, u, v)
    ensures HandledAll(cfg, t, v, trace + [s])
  {
    assert (trace + [s])[..|trace|] == trace;
    forall kind ensures Total(cfg, trace + [s], kind) == Total(cfg, trace, kind) + Number(cfg, s.f, 0, s.n, kind) {}
  }

  /** Every message of the stretches is counted, skipped, lost or reported, exactly once. */
  lemma {:induction false} TotalsAddUp(cfg: Settings, trace: seq<Stretch>)
    ensures Total(cfg, trace, Finishes) + Total(cfg, trace, Vanishes) + Total(cfg, trace, LosesRecord)
            + Total(cfg, trace, Unread) + Total(cfg, trace, Breaks) == Messages(trace)
  {
    if trace != [] {
      TotalsAddUp(cfg, trace[..|trace| - 1]);
      KindsAddUp(cfg, trace[|trace| - 1].f, 0, trace[|trace| - 1].n);
    }
  }

  /** Of this folder at least so many messages were handled, if it lists so many. */
  ghost predicate Reaches(trace: seq<Stretch>, f: FolderEnv, least: int) {
    f.count.Some? && exists i :: 0 <= i < |trace| && trace[i].f == f && trace[i].n >= Min(f.count.value, least)
  }

  lemma ReachesMore(trace: seq<Stretch>, more: seq<Stretch>, f: FolderEnv, least: int, less: int)
    requires Reaches(trace, f, least) && less <= least
    ensures Reaches(trace + more, f, less)
  {
    var i :| 0 <= i < |trace| && trace[i].f == f && trace[i].n >= Min(f.count.value, least);
    assert (trace + more)[i] == trace[i];
  }

  lemma ReachesLast(trace: seq<Stretch>, s: Stretch, least: int)
    requires s.f.count.Some? && s.n >= Min(s.f.count.value, least)
    ensures Reaches(trace + [s], s.f, least)
  {
    assert (trace + [s])[|trace|] == s;
  }

  // ----- the feedback folders -----

  lemma FeedbackMessageCounts(cfg: Settings, f: FolderEnv, k: nat, t: Tally)
    requires t.end == Going && FeedbackMessage(cfg, f, k, t).end == Going
    ensures Handled(cfg, f, k, k + 1, 0, t, FeedbackMessage(cfg, f, k, t))
  {
    NumberOfNone(cfg, f, k + 1);
    if !Happens(cfg, f.message(k)).Waiting? {
      ExamineCounts(cfg, f, k, t);
    } else {
      RouteCounts(f, k, 1, 0, t);
    }
  }

  /** A feedback folder handles its messages up to the limit. */
  lemma {:induction false} FeedbackFolderHandles(cfg: Settings, f: FolderEnv, limit: nat, n: nat, k: nat, t: Tally)
    returns (j: nat)
    requires k <= n && t.end == Going && FeedbackMessages(cfg, f, limit, n, k, t).end == Going
    ensures k <= j <= n && (j < n ==> FeedbackMessages(cfg, f, limit, n, k, t).processed >= limit)
    ensures Handled(cfg, f, k, j, 0, t, FeedbackMessages(cfg, f, limit, n, k, t))
    decreases n - k
  {
    if k == n || t.processed >= limit {
      j := k;
    } else {
      var u := FeedbackMessage(cfg, f, k, t);
      FeedbackMessageCounts(cfg, f, k, t);
      j := FeedbackFolderHandles(cfg, f, limit, n, k + 1, u);
      OneThenMore(cfg, f, k, j, 0, t, u, FeedbackMessages(cfg, f, limit, n, k, t));
    }
  }

  /** The first i feedback folders were handled up to what was left of the limit. */
  ghost predicate FeedbackReached(env: BatchEnv, limit: nat, i: nat, u: Tally, trace: seq<Stretch>) {
    forall k: nat {:trigger env.feedback(k)} | k < i :: Reaches(trace, env.feedback(k), limit - u.processed)
  }

  lemma ListingFails(cfg: Settings, env: BatchEnv, limit: nat, i: nat, t: Tally)
    requires i < FeedbackFolders(cfg) && t.end == Going && t.processed < limit && env.feedback(i).count.None?
    ensures FeedbackFrom(cfg, env, limit, i, t) == t.(errors := t.errors + 1)
  {
  }

  /** One more feedback folder is handled. */
  lemma NextFeedbackFolder(cfg: Settings, env: BatchEnv, limit: nat, i: nat, s: Tally, t: Tally, trace: seq<Stretch>)
    returns (u: Tally, longer: seq<Stretch>)
    requires i < FeedbackFolders(cfg) && t.end == Going && t.processed < limit && env.feedback(i).count.Some?
    requires HandledAll(cfg, s, t, trace) && FeedbackReached(env, limit, i, t, trace)
    requires FeedbackFrom(cfg, env, limit, i, t).end == Going
    ensures u.end == Going && FeedbackFrom(cfg, env, limit, i + 1, u) == FeedbackFrom(cfg, env, limit, i, t)
    ensures HandledAll(cfg, s, u, longer) && FeedbackReached(env, limit, i + 1, u, longer)
  {
    var f := env.feedback(i);
    var n := Min(f.count.value, limit - t.processed);
    u := FeedbackMessages(cfg, f, limit, n, 0, t);
    var j := FeedbackFolderHandles(cfg, f, limit, n, 0, t);
    longer := trace + [Stretch(f, j)];
    HandledOneMore(cfg, s, t, u, trace, Stretch(f, j));
    ReachesLast(trace, Stretch(f, j), limit - u.processed);
    forall k: nat {:trigger env.feedback(k)} | k < i ensures Reaches(longer, env.feedback(k), limit - u.processed) {
      ReachesMore(trace, [Stretch(f, j)], env.feedback(k), limit - t.processed, limit - u.processed);
    }
  }

  lemma {:induction false} FeedbackHandles(cfg: Settings, env: BatchEnv, limit: nat, i: nat, s: Tally, t: Tally,
                                           trace: seq<Stretch>)
    returns (all: seq<Stretch>)
    requires i <= FeedbackFolders(cfg) && t.end == Going && FeedbackFrom(cfg, env, limit, i, t).end == Going
    requires HandledAll(cfg, s, t, trace) && FeedbackReached(env, limit, i, t, trace)
    ensures var u := FeedbackFrom(cfg, env, limit, i, t);
            && HandledAll(cfg, s, u, all)
            && (u.processed >= limit || u.errors > s.errors
                || FeedbackReached(env, limit, FeedbackFolders(cfg), u, all))
    decreases FeedbackFolders(cfg) - i
  {
    if i == FeedbackFolders(cfg) || t.processed >= limit {
      all := trace;
    } else if env.feedback(i).count.None? {
      ListingFails(cfg, env, limit, i, t);
      all := trace;
    } else {
      var u, longer := NextFeedbackFolder(cfg, env, limit, i, s, t, trace);
      all := FeedbackHandles(cfg, env, limit, i + 1, s, u, longer);
    }
  }

  // ----- the quarantine folders and the inbox -----

  lemma FolderOfHandles(cfg: Settings, f: FolderEnv, limit: nat, isInbox: bool, s: Tally, t: Tally, trace: seq<Stretch>)
    returns (all: seq<Stretch>)
    requires t.end == Going && FolderOf(cfg, f, limit, isInbox, t).end == Going && HandledAll(cfg, s, t, trace)
    ensures HandledAll(cfg, s, FolderOf(cfg, f, limit, isInbox, t), all) && trace <= all
    ensures FolderOf(cfg, f, limit, isInbox, t).processed >= t.processed
    ensures FolderOf(cfg, f, limit, isInbox, t).errors >= t.errors
    ensures if f.count.Some? then Reaches(all, f, limit)
            else isInbox ==> FolderOf(cfg, f, limit, isInbox, t).errors > s.errors
  {
    if f.count.None? {
      all := trace;
    } else {
      var n := Min(f.count.value, limit);
      FolderHandles(cfg, f, n, 0, 0, t);
      HandledOneMore(cfg, s, t, FolderOf(cfg, f, limit, isInbox, t), trace, Stretch(f, n));
      ReachesLast(trace, Stretch(f, n), limit);
      all := trace + [Stretch(f, n)];
    }
  }

  /** The quarantine folders that can be listed were handled up to what was left of their budget. */
  ghost predicate QuarantineReached(env: BatchEnv, least: int, from: nat, to: nat, trace: seq<Stretch>) {
    forall k: nat {:trigger env.quarantine(k)} | from <= k < to && env.quarantine(k).count.Some? ::
      least <= 0 || Reaches(trace, env.quarantine(k), least)
  }

  lemma NothingToReach(env: BatchEnv, least: int, from: nat, to: nat, trace: seq<Stretch>)
    requires from == to || least <= 0
    ensures QuarantineReached(env, least, from, to, trace)
  {
  }

  lemma {:induction false} QuarantineHandles(cfg: Settings, env: BatchEnv, budget: int, i: nat, s: Tally, t: Tally,
                                             trace: seq<Stretch>)
    returns (all: seq<Stretch>)
    requires i <= cfg.quarantineFolders && t.end == Going && QuarantineFrom(cfg, env, budget, i, t).end == Going
    requires HandledAll(cfg, s, t, trace)
    ensures var u := QuarantineFrom(cfg, env, budget, i, t);
            && HandledAll(cfg, s, u, all) && trace <= all && u.processed >= t.processed && u.errors >= t.errors
            && QuarantineReached(env, budget - (u.processed - t.processed), i, cfg.quarantineFolders, all)
    decreases cfg.quarantineFolders - i
  {
    if i == cfg.quarantineFolders || budget <= 0 {
      all := trace;
      NothingToReach(env, budget, i, cfg.quarantineFolders, all);
    } else {
      var f := env.quarantine(i);
      var u := FolderOf(cfg, f, budget, false, t);
      var longer := FolderOfHandles(cfg, f, budget, false, s, t, trace);
      all := QuarantineHandles(cfg, env, budget - (u.processed - t.processed), i + 1, s, u, longer);
      if f.count.Some? {
        assert all == longer + all[|longer|..];
        ReachesMore(longer, all[|longer|..], f, budget,
                    budget - (QuarantineFrom(cfg, env, budget, i, t).processed - t.processed));
      }
    }
  }

  // ----- one batch -----

  /** What a batch without errors has handled: `fed` and `checked` are the counts after the feedback folders
      and after the quarantine folders. */
  ghost predicate Complete(cfg: Settings, env: BatchEnv, limit: nat, u: Tally, trace: seq<Stretch>, fed: nat,
                           checked: nat) {
    && fed <= checked <= u.processed
    && (fed < limit ==> forall k: nat {:trigger env.feedback(k)} | k < FeedbackFolders(cfg) ::
                          Reaches(trace, env.feedback(k), limit - fed))
    && (fed < limit ==>
          QuarantineReached(env, QuarantineBudget(cfg, limit - fed) - (checked - fed), 0, cfg.quarantineFolders, trace))
    && (checked < limit ==> Reaches(trace, env.inbox, limit - checked)
                            && u.processed == checked + Number(cfg, env.inbox, 0, Min(env.inbox.count.value,
                                                                                      limit - checked), Finishes))
    && (checked >= limit ==> u.processed == checked)
  }

  /** The inbox after what was checked before it. */
  lemma InboxHandles(cfg: Settings, env: BatchEnv, limit: nat, c: Tally, trace: seq<Stretch>)
    returns (all: seq<Stretch>)
    requires c.end == Going && c.processed < limit && HandledAll(cfg, NOTHING, c, trace)
    requires FolderOf(cfg, env.inbox, limit - c.processed, true, c).end == Going
    ensures var u := FolderOf(cfg, env.inbox, limit - c.processed, true, c);
            && HandledAll(cfg, NOTHING, u, all) && trace <= all && c.processed <= u.processed
            && (u.errors == 0 ==>
                  && Reaches(all, env.inbox, limit - c.processed)
                  && u.processed == c.processed + Number(cfg, env.inbox, 0, Min(env.inbox.count.value,
                                                                                limit - c.processed), Finishes))
  {
    all := FolderOfHandles(cfg, env.inbox, limit - c.processed, true, NOTHING, c, trace);
    if env.inbox.count.Some? {
      FolderHandles(cfg, env.inbox, Min(env.inbox.count.value, limit - c.processed), 0, 0, c);
    }
  }

  lemma RestHandles(cfg: Settings, env: BatchEnv, limit: nat, fed: Tally, trace: seq<Stretch>)
    returns (all: seq<Stretch>, checked: nat)
    requires fed.end == Going && RestOf(cfg, env, limit, fed).end == Going && HandledAll(cfg, NOTHING, fed, trace)
    ensures var u := RestOf(cfg, env, limit, fed);
            && HandledAll(cfg, NOTHING, u, all) && trace <= all && fed.processed <= checked <= u.processed
            && (fed.processed < limit ==>
                  QuarantineReached(env, QuarantineBudget(cfg, limit - fed.processed) - (checked - fed.processed), 0,
                                    cfg.quarantineFolders, all))
            && (checked >= limit ==> u.processed == checked)
            && (checked < limit && u.errors == 0 ==>
                  && Reaches(all, env.inbox, limit - checked)
                  && u.processed == checked + Number(cfg, env.inbox, 0, Min(env.inbox.count.value, limit - checked),
                                                     Finishes))
  {
    var budget := QuarantineBudget(cfg, Max(0, limit - fed.processed));
    var c := QuarantineFrom(cfg, env, budget, 0, fed);
    var some := QuarantineHandles(cfg, env, budget, 0, NOTHING, fed, trace);
    checked := c.processed;
    if c.processed >= limit {
      all := some;
    } else {
      all := InboxHandles(cfg, env, limit, c, some);
      StillReached(env, budget - (checked - fed.processed), cfg.quarantineFolders, some, all);
    }
  }

  lemma StillReached(env: BatchEnv, least: int, n: nat, trace: seq<Stretch>, all: seq<Stretch>)
    requires QuarantineReached(env, least, 0, n, trace) && trace <= all
    ensures QuarantineReached(env, least, 0, n, all)
  {
    assert all == trace + all[|trace|..];
    forall k: nat {:trigger env.quarantine(k)} | k < n && env.quarantine(k).count.Some? && least > 0
      ensures Reaches(all, env.quarantine(k), least)
    {
      ReachesMore(trace, all[|trace|..], env.quarantine(k), least, least);
    }
  }

  lemma StillFed(env: BatchEnv, limit: nat, n: nat, fed: Tally, trace: seq<Stretch>, all: seq<Stretch>)
    requires FeedbackReached(env, limit, n, fed, trace) && trace <= all
    ensures FeedbackReached(env, limit, n, fed, all)
  {
    assert all == trace + all[|trace|..];
    forall k: nat {:trigger env.feedback(k)} | k < n ensures Reaches(all, env.feedback(k), limit - fed.processed) {
      ReachesMore(trace, all[|trace|..], env.feedback(k), limit - fed.processed, limit - fed.processed);
    }
  }

  /** A batch that is not aborted handles every message of its lists once; without errors, these are the lists
      of all feedback folders, of the quarantine folders and of the inbox up to what is left of the limit. */
  lemma BatchHandles(cfg: Settings, env: BatchEnv, limit: nat) returns (trace: seq<Stretch>, fed: nat, checked: nat)
    requires BatchOf(cfg, env, limit).end == Going
    ensures HandledAll(cfg, NOTHING, BatchOf(cfg, env, limit), trace)
    ensures BatchOf(cfg, env, limit).errors == 0 ==>
              Complete(cfg, env, limit, BatchOf(cfg, env, limit), trace, fed, checked)
  {
    var f := FeedbackFrom(cfg, env, limit, 0, NOTHING);
    var some := FeedbackHandles(cfg, env, limit, 0, NOTHING, NOTHING, []);
    fed := f.processed;
    if f.errors > 0 {
      trace, checked := some, fed;
    } else {
      trace, checked := RestHandles(cfg, env, limit, f, some);
      if fed < limit { StillFed(env, limit, FeedbackFolders(cfg), f, some, trace); }
    }
  }

  // ----- the whole drain -----

  function Sum(cfg: Settings, traces: seq<seq<Stretch>>, kind: Kind): nat {
    if traces == [] then 0 else Sum(cfg, traces[..|traces| - 1], kind) + Total(cfg, traces[|traces| - 1], kind)
  }

  /** The batch came to what its lists hold. */
  ghost predicate BatchDone(cfg: Settings, env: BatchEnv, limit: nat, trace: seq<Stretch>) {
    var u := BatchOf(cfg, env, limit);
    && u.end == Going && HandledAll(cfg, NOTHING, u, trace)
    && (u.errors == 0 ==> exists fed, checked :: Complete(cfg, env, limit, u, trace, fed, checked))
  }

  /** The summary is the sum over the completed batches. */
  ghost predicate SumsUp(cfg: Settings, env: Environment, b: Bounds, t: Tally, traces: seq<seq<Stretch>>) {
    && t.processed == Sum(cfg, traces, Finishes) && t.skipped == Sum(cfg, traces, Vanishes)
    && t.lost >= Sum(cfg, traces, LosesRecord)
    && t.errors >= Sum(cfg, traces, Unread) + Sum(cfg, traces, LosesRecord)
    && forall i: nat | i < |traces| :: DoneWithin(cfg, env.batch(i), b.size, traces[i])
  }

  /** The batch was done under a limit of at most this size. */
  ghost predicate DoneWithin(cfg: Settings, env: BatchEnv, size: nat, trace: seq<Stretch>) {
    exists limit :: 1 <= limit <= size && BatchDone(cfg, env, limit, trace)
  }

  lemma OneMoreBatch(cfg: Settings, env: Environment, b: Bounds, t: Tally, traces: seq<seq<Stretch>>, limit: nat,
                     trace: seq<Stretch>)
    requires SumsUp(cfg, env, b, t, traces) && 1 <= limit <= b.size
    requires BatchDone(cfg, env.batch(|traces|), limit, trace)
    ensures SumsUp(cfg, env, b, Merged(t, BatchOf(cfg, env.batch(|traces|), limit)), traces + [trace])
  {
    var all := traces + [trace];
    assert all[..|traces|] == traces;
    forall kind ensures Sum(cfg, all, kind) == Sum(cfg, traces, kind) + Total(cfg, trace, kind) {}
    assert DoneWithin(cfg, env.batch(|traces|), b.size, trace);
    forall i: nat | i < |all| ensures DoneWithin(cfg, env.batch(i), b.size, all[i]) {
      if i < |traces| { assert DoneWithin(cfg, env.batch(i), b.size, traces[i]); }
    }
  }

  /** The next round, when it completes its batch. */
  lemma RoundSums(cfg: Settings, env: Environment, b: Bounds, i: nat, t: Tally, limit: nat, traces: seq<seq<Stretch>>)
    returns (longer: seq<seq<Stretch>>)
    requires |traces| == i && 1 <= limit <= b.size && SumsUp(cfg, env, b, t, traces)
    requires BatchOf(cfg, env.batch(i), limit).end == Going
    ensures |longer| == i + 1 && SumsUp(cfg, env, b, Merged(t, BatchOf(cfg, env.batch(i), limit)), longer)
  {
    var trace, fed, checked := BatchHandles(cfg, env.batch(i), limit);
    OneMoreBatch(cfg, env, b, t, traces, limit, trace);
    longer := traces + [trace];
  }

  predicate MoreErrors(t: Tally, u: Tally) { u == t.(errors := u.errors) && u.errors >= t.errors }

  lemma StillSumsUp(cfg: Settings, env: Environment, b: Bounds, t: Tally, u: Tally, traces: seq<seq<Stretch>>)
    requires SumsUp(cfg, env, b, t, traces) && MoreErrors(t, u)
    ensures SumsUp(cfg, env, b, u, traces)
  {
  }

  /** A batch that is aborted adds nothing to the sums but errors. */
  lemma AbortedSumsUp(cfg: Settings, env: Environment, b: Bounds, t: Tally, batch: Tally, u: Tally,
                      traces: seq<seq<Stretch>>)
    requires SumsUp(cfg, env, b, t, traces) && batch.end != Going && MoreErrors(Merged(t, batch), u)
    ensures SumsUp(cfg, env, b, u, traces)
  {
  }

  predicate RoundRuns(r: Rounds, b: Bounds, i: nat, t: Tally) {
    i < b.rounds && t.processed < b.most && !r.late(i)
  }

  function LimitOf(b: Bounds, t: Tally): int { Min(b.size, b.most - t.processed) }

  /** How a round goes on. */
  lemma RoundGoesOn(r: Rounds, b: Bounds, i: nat, t: Tally)
    requires RoundRuns(r, b, i, t) && b.size >= 1
    requires After(r.dryRun, r.batch(i, LimitOf(b, t)), LimitOf(b, t), r.left(i)).None?
    ensures r.batch(i, LimitOf(b, t)).end == Going
    ensures DrainFrom(r, b, i, t) == DrainFrom(r, b, i + 1, Merged(t, r.batch(i, LimitOf(b, t))))
  {
  }

  /** How it ends the drain. */
  lemma RoundStops(r: Rounds, b: Bounds, i: nat, t: Tally)
    requires RoundRuns(r, b, i, t) && b.size >= 1
    requires After(r.dryRun, r.batch(i, LimitOf(b, t)), LimitOf(b, t), r.left(i)).Some?
    ensures var batch, d := r.batch(i, LimitOf(b, t)), DrainFrom(r, b, i, t);
            d.batches == (if batch.end == Going then i + 1 else i) && MoreErrors(Merged(t, batch), d.tally)
  {
  }

  /** The last round of a drain. */
  lemma LastRoundSums(cfg: Settings, env: Environment, b: Bounds, i: nat, t: Tally, limit: nat,
                      traces: seq<seq<Stretch>>, u: Tally)
    returns (all: seq<seq<Stretch>>)
    requires |traces| == i && 1 <= limit <= b.size && SumsUp(cfg, env, b, t, traces)
    requires MoreErrors(Merged(t, BatchOf(cfg, env.batch(i), limit)), u)
    ensures |all| == if BatchOf(cfg, env.batch(i), limit).end == Going then i + 1 else i
    ensures SumsUp(cfg, env, b, u, all)
  {
    var batch := BatchOf(cfg, env.batch(i), limit);
    if batch.end == Going {
      all := RoundSums(cfg, env, b, i, t, limit, traces);
      StillSumsUp(cfg, env, b, Merged(t, batch), u, all);
    } else {
      all := traces;
      AbortedSumsUp(cfg, env, b, t, batch, u, all);
    }
  }

  lemma {:induction false} DrainSums(cfg: Settings, env: Environment, b: Bounds, i: nat, t: Tally,
                                     traces: seq<seq<Stretch>>)
    returns (all: seq<seq<Stretch>>)
    requires i <= b.rounds && |traces| == i && b.size >= 1 && SumsUp(cfg, env, b, t, traces)
    ensures var d := DrainFrom(RoundsOf(cfg, env), b, i, t);
            |all| == d.batches && SumsUp(cfg, env, b, d.tally, all)
    decreases b.rounds - i
  {
    var r := RoundsOf(cfg, env);
    if !RoundRuns(r, b, i, t) {
      all := traces;
    } else {
      var limit := LimitOf(b, t);
      var batch := r.batch(i, limit);
      if After(r.dryRun, batch, limit, r.left(i)).None? {
        RoundGoesOn(r, b, i, t);
        var longer := RoundSums(cfg, env, b, i, t, limit, traces);
        all := DrainSums(cfg, env, b, i + 1, Merged(t, batch), longer);
      } else {
        RoundStops(r, b, i, t);
        all := LastRoundSums(cfg, env, b, i, t, limit, traces, DrainFrom(r, b, i, t).tally);
      }
    }
  }

  /** The counters of a drain are the sums over its completed batches, in each of which every message of its
      lists was handled once. */
  lemma DrainCountsEverything(cfg: Settings, env: Environment, batchSize: int, maxMessages: int, maxBatches: int)
    returns (traces: seq<seq<Stretch>>)
    ensures var d, b := DrainOf(cfg, env, batchSize, maxMessages, maxBatches),
              Normalised(batchSize, maxMessages, maxBatches);
            |traces| == d.batches && SumsUp(cfg, env, b, d.tally, traces)
  {
    traces := DrainSums(cfg, env, Normalised(batchSize, maxMessages, maxBatches), 0, NOTHING, []);
  }

  // ----- when nothing goes wrong -----

  predicate FineMessage(m: Examined) {
    m in {Gone, Blocked(true, false), Settled(true), Restored(false, true), Waiting}
  }

  ghost predicate Flawless(cfg: Settings, f: FolderEnv) {
    && (forall k :: FineMessage(f.message(k)) && !f.outOfBudget(k))
    && (forall k, j :: f.routed(k, j) == Works(true))
  }

  /** Nothing was aborted and no error added. */
  predicate Smooth(t: Tally, u: Tally) { u.end == Going && u.errors == t.errors }

  lemma {:induction false} RoutesSmoothly(cfg: Settings, f: FolderEnv, k: nat, n: nat, j: nat, t: Tally)
    requires j <= n && t.end == Going && Flawless(cfg, f)
    ensures Smooth(t, RouteFrom(f, k, n, j, t))
    decreases n - j
  {
    if j < n { RoutesSmoothly(cfg, f, k, n, j + 1, Counted(t, true)); }
  }

  lemma ExaminesSmoothly(cfg: Settings, f: FolderEnv, k: nat, t: Tally)
    requires t.end == Going && Flawless(cfg, f)
    ensures Smooth(t, ExamineOf(Happens(cfg, f.message(k)), t))
  {
    assert FineMessage(f.message(k));
  }

  lemma {:induction false} FolderRunsSmoothly(cfg: Settings, f: FolderEnv, n: nat, k: nat, waiting: nat, t: Tally)
    requires k <= n && t.end == Going && Flawless(cfg, f)
    ensures Smooth(t, FolderFrom(cfg, f, n, k, waiting, t))
    decreases n - k
  {
    if k == n {
      if waiting > 0 { RoutesSmoothly(cfg, f, n, waiting, 0, t); }
    } else if !Happens(cfg, f.message(k)).Waiting? {
      ExaminesSmoothly(cfg, f, k, t);
      FolderRunsSmoothly(cfg, f, n, k + 1, waiting, ExamineOf(Happens(cfg, f.message(k)), t));
    } else if waiting + 1 >= cfg.prefetch {
      RoutesSmoothly(cfg, f, k, waiting + 1, 0, t);
      FolderRunsSmoothly(cfg, f, n, k + 1, 0, RouteGroup(f, k, waiting + 1, t));
    } else {
      FolderRunsSmoothly(cfg, f, n, k + 1, waiting + 1, t);
    }
  }

  lemma {:induction false} FeedbackFolderRunsSmoothly(cfg: Settings, f: FolderEnv, limit: nat, n: nat, k: nat, t: Tally)
    requires k <= n && t.end == Going && Flawless(cfg, f)
    ensures Smooth(t, FeedbackMessages(cfg, f, limit, n, k, t))
    decreases n - k
  {
    if k < n && t.processed < limit {
      if Happens(cfg, f.message(k)).Waiting? { RoutesSmoothly(cfg, f, k, 1, 0, t); }
      else { ExaminesSmoothly(cfg, f, k, t); }
      FeedbackFolderRunsSmoothly(cfg, f, limit, n, k + 1, FeedbackMessage(cfg, f, k, t));
    }
  }

  /** Every folder can be listed, and nothing fails. */
  ghost predicate FlawlessBatch(cfg: Settings, env: BatchEnv) {
    && (forall i :: env.feedback(i).count.Some? && Flawless(cfg, env.feedback(i)))
    && (forall i :: Flawless(cfg, env.quarantine(i)))
    && env.inbox.count.Some? && Flawless(cfg, env.inbox)
  }

  lemma {:induction false} FeedbackRunsSmoothly(cfg: Settings, env: BatchEnv, limit: nat, i: nat, t: Tally)
    requires i <= FeedbackFolders(cfg) && t.end == Going && FlawlessBatch(cfg, env)
    ensures Smooth(t, FeedbackFrom(cfg, env, limit, i, t))
    decreases FeedbackFolders(cfg) - i
  {
    if i < FeedbackFolders(cfg) && t.processed < limit {
      var n := Min(env.feedback(i).count.value, limit - t.processed);
      FeedbackFolderRunsSmoothly(cfg, env.feedback(i), limit, n, 0, t);
      FeedbackRunsSmoothly(cfg, env, limit, i + 1, FeedbackMessages(cfg, env.feedback(i), limit, n, 0, t));
    }
  }

  lemma {:induction false} QuarantineRunsSmoothly(cfg: Settings, env: BatchEnv, budget: int, i: nat, t: Tally)
    requires i <= cfg.quarantineFolders && t.end == Going && FlawlessBatch(cfg, env)
    ensures Smooth(t, QuarantineFrom(cfg, env, budget, i, t))
    decreases cfg.quarantineFolders - i
  {
    if i < cfg.quarantineFolders && budget > 0 {
      var f := env.quarantine(i);
      if f.count.Some? { FolderRunsSmoothly(cfg, f, Min(f.count.value, budget), 0, 0, t); }
      var u := FolderOf(cfg, f, budget, false, t);
      QuarantineRunsSmoothly(cfg, env, budget - Max(0, u.processed - t.processed), i + 1, u);
    }
  }

  /** Where nothing goes wrong a batch is not aborted and reports no error, and so handles all its lists. */
  lemma FlawlessIsComplete(cfg: Settings, env: BatchEnv, limit: nat)
    returns (trace: seq<Stretch>, fed: nat, checked: nat)
    requires FlawlessBatch(cfg, env)
    ensures Smooth(NOTHING, BatchOf(cfg, env, limit))
    ensures HandledAll(cfg, NOTHING, BatchOf(cfg, env, limit), trace)
    ensures Complete(cfg, env, limit, BatchOf(cfg, env, limit), trace, fed, checked)
  {
    var f := FeedbackFrom(cfg, env, limit, 0, NOTHING);
    FeedbackRunsSmoothly(cfg, env, limit, 0, NOTHING);
    var budget := QuarantineBudget(cfg, Max(0, limit - f.processed));
    QuarantineRunsSmoothly(cfg, env, budget, 0, f);
    var c := QuarantineFrom(cfg, env, budget, 0, f);
    if c.processed < limit {
      FolderRunsSmoothly(cfg, env.inbox, Min(env.inbox.count.value, limit - c.processed), 0, 0, c);
    }
    trace, fed, checked := BatchHandles(cfg, env, limit);
  }

  /** New mail in the inbox alone is counted, all of it, in whatever groups it is classified. */
  lemma NewMailIsCounted(cfg: Settings, n: nat, limit: nat)
    requires n <= limit && limit >= 1
    ensures var u := BatchOf(cfg, BatchEnv((_: nat) => IDLE, (_: nat) => IDLE, Full(n, Waiting)), limit);
            u.end == Going && u.processed == u.acted == n && u.errors == u.skipped == u.lost == 0
  {
    var env := BatchEnv((_: nat) => IDLE, (_: nat) => IDLE, Full(n, Waiting));
    IdleFeedback(cfg, env, limit, 0, NOTHING);
    IdleQuarantine(cfg, env, QuarantineBudget(cfg, limit), 0, NOTHING);
    FolderRunsSmoothly(cfg, env.inbox, n, 0, 0, NOTHING);
    FolderHandles(cfg, env.inbox, n, 0, 0, NOTHING);
    FolderBound(cfg, env.inbox, limit, true, NOTHING);
    AllNew(cfg, n, 0, n);
    KindsAddUp(cfg, env.inbox, 0, n);
  }

  lemma {:induction false} AllNew(cfg: Settings, n: nat, k: nat, m: nat)
    requires k <= m
    ensures Number(cfg, Full(n, Waiting), k, m, Finishes) == m - k
    decreases m - k
  {
    if k < m { AllNew(cfg, n, k + 1, m); }
  }

  // ----- why a drain stops -----

  /** What is decided after a batch is true of it, and the drain goes on exactly after a batch without errors
      that made progress while something may be left. */
  lemma DecisionIsTrue(dryRun: bool, batch: Tally, limit: nat, left: Option<nat>)
    ensures match After(dryRun, batch, limit, left)
            case None => batch.end == Going && batch.errors == 0 && !dryRun && batch.processed > 0 && left.Some?
                         && (left.value > 0 || batch.processed >= limit)
            case Some(RuntimeReserve) => batch.end == OutOfBudget
            case Some(Exception) => batch.end == Threw
            case Some(BatchError) => batch.end == Going && batch.errors > 0
            case Some(StatusError) => batch.end == Going && batch.errors == 0 && left == None
            case Some(DryRun) => batch.end == Going && batch.errors == 0 && dryRun
            case Some(NoProgress) => batch.end == Going && batch.processed == 0 && left.Some? && left.value > 0
            case Some(QueueEmpty) => batch.end == Going && batch.processed < Max(limit, 1) && left == Some(0)
            case Some(_) => false
  {
  }

  /** The quarantine folders get at least one message where there is one to give, at most what is configured,
      and otherwise a fifth of what is left. */
  lemma QuarantineShare(cfg: Settings, remaining: nat)
    ensures var q := QuarantineBudget(cfg, remaining);
            && (q == 0 <==> cfg.quarantineFolders == 0 || cfg.quarantineMax <= 0 || remaining == 0)
            && (q > 0 ==> q <= cfg.quarantineMax && (q == 1 || 5 * q <= remaining)
                          && (q == cfg.quarantineMax || remaining < 5 * (q + 1)))
  {
  }

  /** The reason for which a drain stops is true: a limit is used up, time is up, or it was decided after the
      last batch, the k-th one under this limit. */
  lemma {:induction false} StopIsTrue(r: Rounds, b: Bounds, i: nat, t: Tally) returns (k: nat, limit: nat)
    requires i <= b.rounds
    ensures var d := DrainFrom(r, b, i, t);
            match d.stop
            case EnoughMessages => d.tally.processed >= b.most
            case EnoughBatches => d.batches == b.rounds
            case RuntimeReserve => r.late(k) || r.batch(k, limit).end == OutOfBudget
            case stop => k < b.rounds && After(r.dryRun, r.batch(k, limit), limit, r.left(k)) == Some(stop)
    decreases b.rounds - i
  {
    k := i;
    if t.processed < b.most && i < b.rounds && !r.late(i) {
      limit := Min(b.size, b.most - t.processed);
      var batch := r.batch(i, limit);
      DecisionIsTrue(r.dryRun, batch, limit, r.left(i));
      if After(r.dryRun, batch, limit, r.left(i)).None? {
        k, limit := StopIsTrue(r, b, i + 1, Merged(t, batch));
      }
    } else {
      limit := 0;
    }
  }

  /** Arguments that are in order are taken as they are. */
  lemma NormalisedKeeps(batchSize: int, maxMessages: int, maxBatches: int)
    ensures var b := Normalised(batchSize, maxMessages, maxBatches);
            && (batchSize >= 1 ==> b.size == batchSize) && (maxBatches >= 1 ==> b.rounds == maxBatches)
            && (maxMessages >= b.size ==> b.most == maxMessages) && (maxMessages <= b.size ==> b.most == b.size)
  {
  }
}
