/** Draining the inbox in bounded batches: feedback folders first, then the quarantine folders under a
    budget of their own, then the inbox.  The budgets look at the messages that were counted.  A message
    that the virus scanner stopped is moved before that is recorded, and when the recording fails the
    message is moved but not counted; so the budgets bound what is acted on only up to such losses. */
module Drain {
  import opened Common

  function Min(a: int, b: int): int { if a <= b then a else b }
  function Max(a: int, b: int): int { if a >= b then a else b }

  // ----- what happens to the messages -----

  /** What happens to one listed message while it is loaded and examined. */
  datatype Examined =
    | Gone                              // vanished before the export, or already final
    | Unreadable                        // export, scan or parse error before any action
    | Blocked(ok: bool, uncertain: bool)  // stopped by the virus scanner, moved or not; uncertain is also an error
    | Unrecorded                        // the virus scanner stopped it, it was moved, and recording that failed
    | Settled(ok: bool)                 // command, approval reply, interrupted forward or retried move
    | Restored(budget: bool, ok: bool)  // explicit feedback by restoring; its classification may run out of budget
    | Throws(acting: bool)              // any other exception, before or after an action began; it ends the drain
    | Waiting                           // needs classification together with others

  /** How routing a classified message ends. */
  datatype Routed = Works(ok: bool) | Fails

  /** One folder: how many messages it lists (None is an error), what happens to the k-th, whether the
      classification due at the k-th runs out of budget, and how routing the j-th of that group ends. */
  datatype FolderEnv = FolderEnv(
    count: Option<nat>, message: nat -> Examined, outOfBudget: nat -> bool, routed: (nat, nat) -> Routed)

  datatype BatchEnv = BatchEnv(feedback: nat -> FolderEnv, quarantine: nat -> FolderEnv, inbox: FolderEnv)

  /** The environment: the i-th batch, whether time is up before it, and what the inbox shows after it. */
  datatype Environment = Environment(batch: nat -> BatchEnv, late: nat -> bool, left: nat -> Option<nat>)

  /** `learned` feedback folders come on top of the four fixed ones. */
  datatype Settings = Settings(
    learned: nat, quarantineFolders: nat, quarantineMax: int, prefetch: nat, dryRun: bool, antivirus: bool)

  function FeedbackFolders(cfg: Settings): nat { 4 + cfg.learned }

  /** Nothing can be moved unrecorded: a dry run moves nothing, and without scanner nothing is stopped. */
  predicate LossFree(cfg: Settings) { cfg.dryRun || !cfg.antivirus }

  function Happens(cfg: Settings, m: Examined): Examined {
    if m.Unrecorded? && LossFree(cfg) then Unreadable else m
  }

  // ----- the counters -----

  datatype End = Going | OutOfBudget | Threw

  /** The counters of a summary, the messages that an action was begun for, and those of them that were
      lost to the summary because recording the action failed. */
  datatype Tally = Tally(processed: nat, skipped: nat, errors: nat, acted: nat, lost: nat, end: End)

  const NOTHING := Tally(0, 0, 0, 0, 0, Going)

  /** An action that is counted. */
  function Counted(t: Tally, ok: bool): Tally {
    t.(processed := t.processed + 1, acted := t.acted + 1, errors := if ok then t.errors else t.errors + 1)
  }

  function ExamineOf(m: Examined, t: Tally): Tally {
    match m
    case Gone => t.(skipped := t.skipped + 1)
    case Unreadable => t.(errors := t.errors + 1)
    case Blocked(ok, uncertain) =>
      var c := Counted(t, ok);
      if uncertain then c.(errors := c.errors + 1) else c
    case Unrecorded => t.(acted := t.acted + 1, lost := t.lost + 1, errors := t.errors + 1)
    case Settled(ok) => Counted(t, ok)
    case Restored(budget, ok) => if budget then t.(acted := t.acted + 1, end := OutOfBudget) else Counted(t, ok)
    case Throws(acting) => t.(acted := if acting then t.acted + 1 else t.acted, end := Threw)
    case Waiting => t
  }

  /** Routing the messages j to n of the group that was classified at the k-th message. */
  function RouteFrom(f: FolderEnv, k: nat, n: nat, j: nat, t: Tally): Tally
    requires j <= n
    decreases n - j
  {
    if j == n || t.end != Going then t
    else RouteFrom(f, k, n, j + 1, if f.routed(k, j).Works? then Counted(t, f.routed(k, j).ok)
                                   else t.(acted := t.acted + 1, end := Threw))
  }

  function RouteGroup(f: FolderEnv, k: nat, n: nat, t: Tally): Tally {
    if f.outOfBudget(k) then t.(end := OutOfBudget) else RouteFrom(f, k, n, 0, t)
  }

  /** The messages k to n of the inbox or of a quarantine folder. */
  function FolderFrom(cfg: Settings, f: FolderEnv, n: nat, k: nat, waiting: nat, t: Tally): Tally
    requires k <= n
    decreases n - k
  {
    if t.end != Going then t
    else if k == n then if waiting > 0 then RouteGroup(f, n, waiting, t) else t
    else
      var m := Happens(cfg, f.message(k));
      if !m.Waiting? then FolderFrom(cfg, f, n, k + 1, waiting, ExamineOf(m, t))
      else if waiting + 1 >= cfg.prefetch then FolderFrom(cfg, f, n, k + 1, 0, RouteGroup(f, k, waiting + 1, t))
      else FolderFrom(cfg, f, n, k + 1, waiting + 1, t)
  }

  /** A quarantine folder that cannot be listed is only reported, the inbox is an error. */
  function FolderOf(cfg: Settings, f: FolderEnv, limit: nat, isInbox: bool, t: Tally): Tally {
    if f.count.None? then if isInbox then t.(errors := t.errors + 1) else t
    else FolderFrom(cfg, f, Min(f.count.value, limit), 0, 0, t)
  }

  /** One message of a feedback folder: a decision is classified and routed on its own. */
  function FeedbackMessage(cfg: Settings, f: FolderEnv, k: nat, t: Tally): Tally {
    var m := Happens(cfg, f.message(k));
    if !m.Waiting? then ExamineOf(m, t)
    else if f.outOfBudget(k) then t.(acted := t.acted + 1, end := OutOfBudget)
    else RouteFrom(f, k, 1, 0, t)
  }

  function FeedbackMessages(cfg: Settings, f: FolderEnv, limit: nat, n: nat, k: nat, t: Tally): Tally
    requires k <= n
    decreases n - k
  {
    if k == n || t.end != Going || t.processed >= limit then t
    else FeedbackMessages(cfg, f, limit, n, k + 1, FeedbackMessage(cfg, f, k, t))
  }

  /** The feedback folders from the i-th on, until the limit is used up or a listing fails. */
  function FeedbackFrom(cfg: Settings, env: BatchEnv, limit: nat, i: nat, t: Tally): Tally
    requires i <= FeedbackFolders(cfg)
    decreases FeedbackFolders(cfg) - i
  {
    if i == FeedbackFolders(cfg) || t.end != Going || t.processed >= limit then t
    else
      var f := env.feedback(i);
      if f.count.None? then t.(errors := t.errors + 1)
      else FeedbackFrom(cfg, env, limit, i + 1, FeedbackMessages(cfg, f, limit,
            Min(f.count.value, limit - t.processed), 0, t))
  }

  /** The quarantine folders from the i-th on; what was counted is taken off their common budget. */
  function QuarantineFrom(cfg: Settings, env: BatchEnv, budget: int, i: nat, t: Tally): Tally
    requires i <= cfg.quarantineFolders
    decreases cfg.quarantineFolders - i
  {
    if i == cfg.quarantineFolders || t.end != Going || budget <= 0 then t
    else
      var after := FolderOf(cfg, env.quarantine(i), budget, false, t);
      QuarantineFrom(cfg, env, budget - Max(0, after.processed - t.processed), i + 1, after)
  }

  /** The budget of the quarantine folders: a fifth of what is left, but at least one. */
  function QuarantineBudget(cfg: Settings, remaining: nat): nat {
    if cfg.quarantineFolders == 0 || cfg.quarantineMax <= 0 || remaining == 0 then 0
    else Min(cfg.quarantineMax, Max(1, remaining / 5))
  }

  /** The quarantine folders and the inbox, after the feedback folders. */
  function RestOf(cfg: Settings, env: BatchEnv, limit: nat, fed: Tally): Tally {
    var checked := QuarantineFrom(cfg, env, QuarantineBudget(cfg, Max(0, limit - fed.processed)), 0, fed);
    if checked.end != Going || checked.processed >= limit then checked
    else FolderOf(cfg, env.inbox, limit - checked.processed, true, checked)
  }

  function BatchOf(cfg: Settings, env: BatchEnv, limit: nat): Tally {
    var fed := FeedbackFrom(cfg, env, limit, 0, NOTHING);
    if fed.end != Going || fed.errors > 0 then fed else RestOf(cfg, env, limit, fed)
  }

  // ----- the drain -----

  datatype StopReason = EnoughMessages | EnoughBatches | RuntimeReserve | Exception | BatchError | StatusError |
      DryRun | NoProgress | QueueEmpty

  datatype Drained = Drained(tally: Tally, batches: nat, stop: StopReason)

  /** The arguments after normalisation: batch size, message limit and batch limit. */
  datatype Bounds = Bounds(size: nat, most: nat, rounds: nat)

  /** The message limit is never below the batch size. */
  function Normalised(batchSize: int, maxMessages: int, maxBatches: int): (b: Bounds)
    ensures 1 <= b.size <= b.most && b.rounds >= 1
  {
    Bounds(Max(1, batchSize), Max(Max(1, batchSize), maxMessages), Max(1, maxBatches))
  }

  /** What a batch adds; the summary of an aborted batch is not merged. */
  function Merged(t: Tally, batch: Tally): Tally {
    if batch.end != Going then t.(acted := t.acted + batch.acted, lost := t.lost + batch.lost)
    else Tally(t.processed + batch.processed, t.skipped + batch.skipped, t.errors + batch.errors,
               t.acted + batch.acted, t.lost + batch.lost, Going)
  }

  /** The batches as the drain sees them: what the i-th one comes to under a limit. */
  datatype Rounds = Rounds(batch: (nat, nat) -> Tally, late: nat -> bool, left: nat -> Option<nat>, dryRun: bool)

  function RoundsOf(cfg: Settings, env: Environment): Rounds {
    Rounds((i: nat, limit: nat) => BatchOf(cfg, env.batch(i), limit), env.late, env.left, cfg.dryRun)
  }

  /** What is decided after a batch; None goes on. */
  function After(dryRun: bool, batch: Tally, limit: nat, left: Option<nat>): Option<StopReason> {
    if batch.end == OutOfBudget then Some(RuntimeReserve)
    else if batch.end == Threw then Some(Exception)
    else if batch.errors > 0 then Some(BatchError)
    else AfterClean(dryRun, batch.processed, limit, if left.Some? then Some(Min(left.value, 1)) else None)
  }

  function AfterClean(dryRun: bool, processed: nat, limit: nat, left: Option<nat>): Option<StopReason> {
    if left.None? then Some(StatusError)
    else if dryRun then Some(DryRun)
    else if processed == 0 then Some(if left.value > 0 then NoProgress else QueueEmpty)
    else if left.value == 0 && processed < limit then Some(QueueEmpty)
    else None
  }

  function WithStopError(t: Tally, stop: StopReason): Tally {
    if stop == StatusError || stop == NoProgress then t.(errors := t.errors + 1) else t
  }

  function Ended(t: Tally, i: nat, batch: Tally, stop: StopReason): Drained {
    Drained(WithStopError(Merged(t, batch), stop), if batch.end == Going then i + 1 else i, stop)
  }

  function DrainFrom(r: Rounds, b: Bounds, i: nat, t: Tally): Drained
    requires i <= b.rounds
    decreases b.rounds - i
  {
    if t.processed >= b.most then Drained(t, i, EnoughMessages)
    else if i == b.rounds then Drained(t, i, EnoughBatches)
    else if r.late(i) then Drained(t, i, RuntimeReserve)
    else
      var limit := Min(b.size, b.most - t.processed);
      var batch := r.batch(i, limit);
      var stop := After(r.dryRun, batch, limit, r.left(i));
      if stop.Some? then Ended(t, i, batch, stop.value) else DrainFrom(r, b, i + 1, Merged(t, batch))
  }

  function DrainOf(cfg: Settings, env: Environment, batchSize: int, maxMessages: int, maxBatches: int): Drained {
    DrainFrom(RoundsOf(cfg, env), Normalised(batchSize, maxMessages, maxBatches), 0, NOTHING)
  }

  // ----- the program -----

  /** A summary; `acted` and `lost` keep the books on what the program itself does not count. */
  class RunSummary {
    var processed: nat
    var skipped: nat
    var errors: nat
    var acted: nat
    var lost: nat

    constructor ()
      ensures TallyAt(Going) == NOTHING
    {
      processed, skipped, errors, acted, lost := 0, 0, 0, 0, 0;
    }

    function TallyAt(end: End): Tally
      reads this
    {
      Tally(processed, skipped, errors, acted, lost, end)
    }

    /** An action on one message. */
    method Add(ok: bool)
      modifies this
      ensures TallyAt(Going) == Counted(old(TallyAt(Going)), ok)
    {
      acted := acted + 1;
      processed := processed + 1;
      if !ok {
        errors := errors + 1;
      }
    }

    method Merge(batch: RunSummary, end: End)
      requires batch != this
      modifies this
      ensures TallyAt(Going) == Merged(old(TallyAt(Going)), old(batch.TallyAt(end)))
    {
      acted, lost := acted + batch.acted, lost + batch.lost;
      if end == Going {
        processed, skipped, errors := processed + batch.processed, skipped + batch.skipped, errors + batch.errors;
      }
    }
  }

  class Agent {
    const cfg: Settings
    /** The limits of all listings. */
    var limits: seq<nat>

    constructor (cfg: Settings)
      ensures this.cfg == cfg && limits == []
    {
      this.cfg, limits := cfg, [];
    }

    /** The listings since then all had a limit; a limit of 0 would list without one. */
    ghost predicate AllLimitedSince(before: seq<nat>)
      reads this
    {
      before <= limits && forall i | |before| <= i < |limits| :: limits[i] >= 1
    }

    /** Listing a folder; the backend cuts the list only when the limit is not 0. */
    method ListEnvelopes(count: Option<nat>, limit: nat) returns (n: Option<nat>)
      modifies this`limits
      ensures limits == old(limits) + [limit]
      ensures n == if count.Some? && limit > 0 then Some(Min(count.value, limit)) else count
    {
      limits := limits + [limit];
      n := if count.Some? && limit > 0 then Some(Min(count.value, limit)) else count;
    }

    method ExamineMessage(s: RunSummary, m: Examined) returns (end: End)
      modifies s
      ensures s.TallyAt(end) == ExamineOf(m, old(s.TallyAt(Going)))
    {
      end := Going;
      match m {
        case Gone => s.skipped := s.skipped + 1;
        case Unreadable => s.errors := s.errors + 1;
        case Blocked(ok, uncertain) =>
          s.Add(ok);
          if uncertain {
            s.errors := s.errors + 1;
          }
        case Unrecorded =>
          s.acted, s.lost := s.acted + 1, s.lost + 1;
          s.errors := s.errors + 1;
        case Settled(ok) => s.Add(ok);
        case Restored(budget, ok) =>
          if budget {
            s.acted := s.acted + 1;
            end := OutOfBudget;
          } else {
            s.Add(ok);
          }
        case Throws(acting) =>
          if acting {
            s.acted := s.acted + 1;
          }
          end := Threw;
        case Waiting =>
      }
    }

    /** The loop over the classified messages. */
    method RouteMessages(s: RunSummary, f: FolderEnv, k: nat, n: nat) returns (end: End)
      modifies s
      ensures s.TallyAt(end) == RouteFrom(f, k, n, 0, old(s.TallyAt(Going)))
    {
      end := Going;
      for j := 0 to n
        invariant end == Going
        invariant RouteFrom(f, k, n, 0, old(s.TallyAt(Going))) == RouteFrom(f, k, n, j, s.TallyAt(Going))
      {
        match f.routed(k, j) {
          case Works(ok) => s.Add(ok);
          case Fails =>
            s.acted := s.acted + 1;
            return Threw;
        }
      }
    }

    /** Classifying and routing the waiting messages. */
    method ClassifyAndRoute(s: RunSummary, f: FolderEnv, k: nat, waiting: nat) returns (end: End)
      modifies s
      ensures s.TallyAt(end) == RouteGroup(f, k, waiting, old(s.TallyAt(Going)))
    {
      if f.outOfBudget(k) {
        return OutOfBudget;
      }
      end := RouteMessages(s, f, k, waiting);
    }

    /** The inbox or one quarantine folder. */
    method ProcessFolder(s: RunSummary, f: FolderEnv, limit: nat, isInbox: bool) returns (end: End)
      requires limit >= 1
      modifies this, s
      ensures s.TallyAt(end) == FolderOf(cfg, f, limit, isInbox, old(s.TallyAt(Going)))
      ensures limits == old(limits) + [limit]
    {
      end := Going;
      var listed := ListEnvelopes(f.count, limit);
      if listed.None? {
        if isInbox {
          s.errors := s.errors + 1;
        }
        return;
      }
      var waiting := 0;
      ghost var start := s.TallyAt(Going);
      for k := 0 to listed.value
        invariant end == Going
        invariant limits == old(limits) + [limit]
        invariant FolderFrom(cfg, f, listed.value, 0, 0, start) == FolderFrom(cfg, f, listed.value, k, waiting,
              s.TallyAt(Going))
      {
        var m := Happens(cfg, f.message(k));
        if !m.Waiting? {
          end := ExamineMessage(s, m);
        } else if waiting + 1 >= cfg.prefetch {
          end := ClassifyAndRoute(s, f, k, waiting + 1);
          waiting := 0;
        } else {
          waiting := waiting + 1;
        }
        if end != Going {
          assert FolderFrom(cfg, f, listed.value, k + 1, waiting, s.TallyAt(end)) == s.TallyAt(end);
          return;
        }
      }
      if waiting > 0 {
        end := ClassifyAndRoute(s, f, listed.value, waiting);
      }
    }

    method ProcessFeedbackMessage(s: RunSummary, f: FolderEnv, k: nat) returns (end: End)
      modifies s
      ensures s.TallyAt(end) == FeedbackMessage(cfg, f, k, old(s.TallyAt(Going)))
    {
      var m := Happens(cfg, f.message(k));
      if !m.Waiting? {
        end := ExamineMessage(s, m);
      } else if f.outOfBudget(k) {
        s.acted := s.acted + 1;
        end := OutOfBudget;
      } else {
        end := RouteMessages(s, f, k, 1);
      }
    }

    /** The loop over the messages of one feedback folder. */
    method ProcessFeedbackFolder(s: RunSummary, f: FolderEnv, limit: nat, n: nat) returns (end: End)
      modifies s
      ensures s.TallyAt(end) == FeedbackMessages(cfg, f, limit, n, 0, old(s.TallyAt(Going)))
    {
      end := Going;
      for k := 0 to n
        invariant end == Going
        invariant FeedbackMessages(cfg, f, limit, n, 0, old(s.TallyAt(Going)))
                  == FeedbackMessages(cfg, f, limit, n, k, s.TallyAt(Going))
      {
        if s.processed >= limit {
          break;
        }
        end := ProcessFeedbackMessage(s, f, k);
        if end != Going {
          assert FeedbackMessages(cfg, f, limit, n, k + 1, s.TallyAt(end)) == s.TallyAt(end);
          return;
        }
      }
    }

    /** The feedback folders. */
    method ProcessFeedback(s: RunSummary, env: BatchEnv, limit: nat) returns (end: End)
      modifies this, s
      ensures s.TallyAt(end) == FeedbackFrom(cfg, env, limit, 0, old(s.TallyAt(Going)))
      ensures AllLimitedSince(old(limits))
    {
      end := Going;
      for i := 0 to FeedbackFolders(cfg)
        invariant end == Going
        invariant AllLimitedSince(old(limits))
        invariant FeedbackFrom(cfg, env, limit, 0, old(s.TallyAt(Going))) == FeedbackFrom(cfg, env, limit, i,
              s.TallyAt(Going))
      {
        var remaining := Max(0, limit - s.processed);
        if remaining == 0 {
          break;
        }
        var listed := ListEnvelopes(env.feedback(i).count, remaining);
        if listed.None? {
          s.errors := s.errors + 1;
          return;
        }
        end := ProcessFeedbackFolder(s, env.feedback(i), limit, listed.value);
        if end != Going {
          assert FeedbackFrom(cfg, env, limit, i + 1, s.TallyAt(end)) == s.TallyAt(end);
          return;
        }
      }
    }

    /** The quarantine folders under their common budget. */
    method ProcessQuarantines(s: RunSummary, env: BatchEnv, total: nat) returns (end: End)
      modifies this, s
      ensures s.TallyAt(end) == QuarantineFrom(cfg, env, total, 0, old(s.TallyAt(Going)))
      ensures AllLimitedSince(old(limits))
    {
      end := Going;
      var budget: int := total;
      for i := 0 to cfg.quarantineFolders
        invariant end == Going
        invariant AllLimitedSince(old(limits))
        invariant QuarantineFrom(cfg, env, total, 0, old(s.TallyAt(Going))) == QuarantineFrom(cfg, env, budget, i,
              s.TallyAt(Going))
      {
        if budget <= 0 {
          break;
        }
        var before := s.processed;
        end := ProcessFolder(s, env.quarantine(i), budget, false);
        if end != Going {
          assert QuarantineFrom(cfg, env, budget - Max(0, s.processed - before), i
                                + 1, s.TallyAt(end)) == s.TallyAt(end);
          return;
        }
        budget := budget - Max(0, s.processed - before);
      }
    }

    method ProcessRest(s: RunSummary, env: BatchEnv, limit: nat) returns (end: End)
      modifies this, s
      ensures s.TallyAt(end) == RestOf(cfg, env, limit, old(s.TallyAt(Going)))
      ensures AllLimitedSince(old(limits))
    {
      var budget := QuarantineBudget(cfg, Max(0, limit - s.processed));
      end := ProcessQuarantines(s, env, budget);
      var remaining := Max(0, limit - s.processed);
      if end == Going && remaining > 0 {
        end := ProcessFolder(s, env.inbox, remaining, true);
      }
    }

    /** One batch. */
    method ProcessBatch(env: BatchEnv, limit: nat) returns (s: RunSummary, end: End)
      modifies this
      ensures fresh(s) && AllLimitedSince(old(limits))
      ensures s.TallyAt(end) == BatchOf(cfg, env, limit)
    {
      s := new RunSummary();
      end := ProcessFeedback(s, env, limit);
      if end == Going && s.errors == 0 {
        end := ProcessRest(s, env, limit);
      }
    }

    /** Draining with the arguments as they are given; they are normalised first. */
    method Run(env: Environment, batchSize: int, maxMessages: int, maxBatches: int)
      returns (s: RunSummary, batches: nat, stop: StopReason)
      requires limits == []
      modifies this
      ensures Drained(s.TallyAt(Going), batches, stop) == DrainOf(cfg, env, batchSize, maxMessages, maxBatches)
      ensures AllLimitedSince([])
    {
      var b := Normalised(batchSize, maxMessages, maxBatches);
      s := new RunSummary();
      batches := 0;
      var reason: Option<StopReason> := None;
      ghost var goal := DrainOf(cfg, env, batchSize, maxMessages, maxBatches);
      while reason.None?
        invariant fresh(s) && AllLimitedSince([]) && batches <= b.rounds
        invariant goal == if reason.None? then DrainFrom(RoundsOf(cfg, env), b, batches, s.TallyAt(Going))
                          else Drained(s.TallyAt(Going), batches, reason.value)
        decreases if reason.None? then 1 else 0, b.rounds - batches
      {
        reason, batches := Turn(s, env, b, batches);
      }
      stop := reason.value;
    }

    /** One turn of the loop: stop, or do one more batch. */
    method Turn(s: RunSummary, env: Environment, b: Bounds, i: nat) returns (reason: Option<StopReason>, batches: nat)
      requires i <= b.rounds && b.size >= 1
      modifies this, s
      ensures AllLimitedSince(old(limits)) && batches <= b.rounds && (reason.None? ==> batches == i + 1)
      ensures DrainFrom(RoundsOf(cfg, env), b, i, old(s.TallyAt(Going)))
              == if reason.None? then DrainFrom(RoundsOf(cfg, env), b, batches, s.TallyAt(Going))
                 else Drained(s.TallyAt(Going), batches, reason.value)
    {
      batches := i;
      if s.processed >= b.most {
        return Some(EnoughMessages), i;
      }
      if i >= b.rounds {
        return Some(EnoughBatches), i;
      }
      if env.late(i) {
        return Some(RuntimeReserve), i;
      }
      var limit := Min(b.size, b.most - s.processed);
      var counts;
      ghost var batch;
      reason, counts, batch := RunBatch(s, env, i, limit);
      assert batch == RoundsOf(cfg, env).batch(i, limit);
      if counts {
        batches := i + 1;
      }
    }

    /** One turn of the drain: a batch, its summary, and what is decided after it. */
    method RunBatch(s: RunSummary, env: Environment, i: nat, limit: nat)
      returns (stop: Option<StopReason>, counts: bool, ghost tally: Tally)
      modifies this, s
      ensures AllLimitedSince(old(limits))
      ensures tally == BatchOf(cfg, env.batch(i), limit)
      ensures stop == After(cfg.dryRun, tally, limit, env.left(i)) && counts == (tally.end == Going)
      ensures s.TallyAt(Going) == if stop.Some? then WithStopError(Merged(old(s.TallyAt(Going)), tally), stop.value)
                                  else Merged(old(s.TallyAt(Going)), tally)
    {
      var batch, end := ProcessBatch(env.batch(i), limit);
      tally := batch.TallyAt(end);
      s.Merge(batch, end);
      counts := end == Going;
      if end == OutOfBudget {
        stop := Some(RuntimeReserve);
      } else if end == Threw {
        stop := Some(Exception);
      } else if batch.errors > 0 {
        stop := Some(BatchError);
      } else {
        var listed := ListEnvelopes(env.left(i), 1);
        stop := AfterListing(s, batch.processed, limit, listed);
      }
    }

    /** What is decided after a clean batch from a look at the inbox. */
    method AfterListing(s: RunSummary, processed: nat, limit: nat, listed: Option<nat>)
      returns (stop: Option<StopReason>)
      modifies s
      ensures stop == AfterClean(cfg.dryRun, processed, limit, listed)
      ensures s.TallyAt(Going) == if stop.Some? then WithStopError(old(s.TallyAt(Going)), stop.value)
                else old(s.TallyAt(Going))
    {
      if listed.None? {
        s.errors := s.errors + 1;
        return Some(StatusError);
      }
      if cfg.dryRun {
        return Some(DryRun);
      }
      if processed == 0 {
        if listed.value > 0 {
          s.errors := s.errors + 1;
          return Some(NoProgress);
        }
        return Some(QueueEmpty);
      }
      if listed.value == 0 && processed < limit {
        return Some(QueueEmpty);
      }
      stop := None;
    }
  }
}
