/** What the budgets of a drain bound: messages that are counted, and so what is acted on up to the
    messages that were moved without being recorded; and exactly when they bound what is acted on. */
module DrainBounds {
  import opened Common
  import opened Drain

  // ----- one stretch of work -----

  /** Everything acted on was counted or lost, but for one action that an abort may interrupt. */
  predicate Sane(t: Tally) {
    t.processed + t.lost <= t.acted <= t.processed + t.lost + if t.end == Going then 0 else 1
  }

  /** The stretch acts on at most `most` messages; it loses messages only with an error, and not at all
      where nothing can be lost. */
  predicate Moves(cfg: Settings, t: Tally, u: Tally, most: nat) {
    && Sane(u) && t.processed <= u.processed && t.lost <= u.lost && t.errors <= u.errors
    && t.acted <= u.acted <= t.acted + most
    && (u.lost > t.lost ==> u.errors > t.errors) && (LossFree(cfg) ==> u.lost == t.lost)
  }

  /** At most `limit` messages are counted, and no more are acted on but for the lost ones. */
  predicate Within(t: Tally, limit: int) { t.processed <= limit && t.acted <= limit + t.lost }

  lemma MovesOn(cfg: Settings, t: Tally, u: Tally, v: Tally, a: nat, b: nat)
    requires Moves(cfg, t, u, a) && Moves(cfg, u, v, b)
    ensures Moves(cfg, t, v, a + b)
  {
  }

  lemma ExamineMoves(cfg: Settings, m: Examined, t: Tally)
    requires Sane(t) && t.end == Going
    ensures Moves(cfg, t, ExamineOf(Happens(cfg, m), t), 1)
  {
  }

  lemma {:induction false} RouteMoves(cfg: Settings, f: FolderEnv, k: nat, n: nat, j: nat, t: Tally)
    requires j <= n && Sane(t)
    ensures Moves(cfg, t, RouteFrom(f, k, n, j, t), n - j)
    decreases n - j
  {
    if j < n && t.end == Going {
      var u := if f.routed(k, j).Works? then Counted(t, f.routed(k, j).ok) else t.(acted := t.acted + 1, end := Threw);
      RouteMoves(cfg, f, k, n, j + 1, u);
      MovesOn(cfg, t, u, RouteFrom(f, k, n, j + 1, u), 1, n - j - 1);
    }
  }

  lemma GroupMoves(cfg: Settings, f: FolderEnv, k: nat, n: nat, t: Tally)
    requires Sane(t) && t.end == Going
    ensures Moves(cfg, t, RouteGroup(f, k, n, t), n)
  {
    if !f.outOfBudget(k) { RouteMoves(cfg, f, k, n, 0, t); }
  }

  /** The inbox or a quarantine folder: every listed message is acted on at most once. */
  lemma {:induction false} FolderMoves(cfg: Settings, f: FolderEnv, n: nat, k: nat, waiting: nat, t: Tally)
    requires k <= n && Sane(t)
    ensures Moves(cfg, t, FolderFrom(cfg, f, n, k, waiting, t), n - k + waiting)
    decreases n - k
  {
    if t.end == Going {
      if k == n {
        if waiting > 0 { GroupMoves(cfg, f, n, waiting, t); }
      } else if !Happens(cfg, f.message(k)).Waiting? {
        var u := ExamineOf(Happens(cfg, f.message(k)), t);
        ExamineMoves(cfg, f.message(k), t);
        FolderMoves(cfg, f, n, k + 1, waiting, u);
        MovesOn(cfg, t, u, FolderFrom(cfg, f, n, k + 1, waiting, u), 1, n - k - 1 + waiting);
      } else if waiting + 1 >= cfg.prefetch {
        var u := RouteGroup(f, k, waiting + 1, t);
        GroupMoves(cfg, f, k, waiting + 1, t);
        FolderMoves(cfg, f, n, k + 1, 0, u);
        MovesOn(cfg, t, u, FolderFrom(cfg, f, n, k + 1, 0, u), waiting + 1, n - k - 1);
      } else {
        FolderMoves(cfg, f, n, k + 1, waiting + 1, t);
      }
    }
  }

  lemma FolderBound(cfg: Settings, f: FolderEnv, limit: nat, isInbox: bool, t: Tally)
    requires Sane(t) && t.end == Going
    ensures Moves(cfg, t, FolderOf(cfg, f, limit, isInbox, t), limit)
    ensures Within(FolderOf(cfg, f, limit, isInbox, t), t.processed + limit)
  {
    if f.count.Some? {
      FolderMoves(cfg, f, Min(f.count.value, limit), 0, 0, t);
    }
  }

  // ----- the feedback folders -----

  lemma FeedbackMessageMoves(cfg: Settings, f: FolderEnv, k: nat, t: Tally)
    requires Sane(t) && t.end == Going
    ensures Moves(cfg, t, FeedbackMessage(cfg, f, k, t), 1)
  {
    if !Happens(cfg, f.message(k)).Waiting? {
      ExamineMoves(cfg, f.message(k), t);
    } else if !f.outOfBudget(k) {
      RouteMoves(cfg, f, k, 1, 0, t);
    }
  }

  lemma {:induction false} FeedbackFolderMoves(cfg: Settings, f: FolderEnv, limit: nat, n: nat, k: nat, t: Tally)
    requires k <= n && Sane(t) && Within(t, limit)
    ensures var u := FeedbackMessages(cfg, f, limit, n, k, t); Moves(cfg, t, u, n - k) && Within(u, limit)
    decreases n - k
  {
    if k < n && t.end == Going && t.processed < limit {
      var u := FeedbackMessage(cfg, f, k, t);
      FeedbackMessageMoves(cfg, f, k, t);
      FeedbackFolderMoves(cfg, f, limit, n, k + 1, u);
      MovesOn(cfg, t, u, FeedbackMessages(cfg, f, limit, n, k + 1, u), 1, n - k - 1);
    }
  }

  /** What the feedback folders from the i-th on do, when that is at most `most` messages. */
  ghost predicate FeedbackWithin(cfg: Settings, env: BatchEnv, limit: nat, i: nat, t: Tally, most: nat)
    requires i <= FeedbackFolders(cfg)
  {
    var u := FeedbackFrom(cfg, env, limit, i, t);
    Moves(cfg, t, u, most) && Within(u, limit)
  }

  /** One more feedback folder in front; `rest` is what the others may act on. */
  lemma FeedbackStep(cfg: Settings, env: BatchEnv, limit: nat, i: nat, t: Tally, u: Tally, rest: nat)
    requires i < FeedbackFolders(cfg) && Sane(t) && Within(t, limit) && t.end == Going && t.processed < limit
    requires env.feedback(i).count.Some?
    requires u == FeedbackMessages(cfg, env.feedback(i), limit,
                                   Min(env.feedback(i).count.value, limit - t.processed), 0, t)
    requires FeedbackWithin(cfg, env, limit, i + 1, u, rest)
    ensures FeedbackWithin(cfg, env, limit, i, t, limit + rest)
  {
    var n := Min(env.feedback(i).count.value, limit - t.processed);
    FeedbackFolderMoves(cfg, env.feedback(i), limit, n, 0, t);
    MovesOn(cfg, t, u, FeedbackFrom(cfg, env, limit, i + 1, u), n, rest);
  }

  /** The same limit once for each of n folders. */
  function Times(n: nat, limit: nat): nat { if n == 0 then 0 else limit + Times(n - 1, limit) }

  lemma {:induction false} TimesIsProduct(n: nat, limit: nat)
    ensures Times(n, limit) == n * limit
  {
    if n > 0 {
      TimesIsProduct(n - 1, limit);
      OneMore(n - 1, limit);
    }
  }

  lemma {:induction false} FeedbackMovesOn(cfg: Settings, env: BatchEnv, limit: nat, i: nat, t: Tally, left: nat)
    requires i + left == FeedbackFolders(cfg) && Sane(t) && Within(t, limit)
    ensures FeedbackWithin(cfg, env, limit, i, t, Times(left, limit))
    decreases left
  {
    if left > 0 && t.end == Going && t.processed < limit && env.feedback(i).count.Some? {
      var n := Min(env.feedback(i).count.value, limit - t.processed);
      var u := FeedbackMessages(cfg, env.feedback(i), limit, n, 0, t);
      FeedbackFolderMoves(cfg, env.feedback(i), limit, n, 0, t);
      FeedbackMovesOn(cfg, env, limit, i + 1, u, left - 1);
      FeedbackStep(cfg, env, limit, i, t, u, Times(left - 1, limit));
    }
  }

  /** The feedback folders from the i-th on act on at most the limit for each of them. */
  lemma FeedbackMoves(cfg: Settings, env: BatchEnv, limit: nat, i: nat, t: Tally, left: nat, most: nat)
    requires i + left == FeedbackFolders(cfg) && most == left * limit && Sane(t) && Within(t, limit)
    ensures var u := FeedbackFrom(cfg, env, limit, i, t); Moves(cfg, t, u, most) && Within(u, limit)
  {
    FeedbackMovesOn(cfg, env, limit, i, t, left);
    TimesIsProduct(left, limit);
  }

  // ----- the quarantine folders -----

  lemma {:induction false} QuarantineMoves(cfg: Settings, env: BatchEnv, budget: nat, i: nat, t: Tally, left: nat,
                                           most: nat)
    requires i + left == cfg.quarantineFolders && most >= left * budget && Sane(t) && t.end == Going
    ensures var u := QuarantineFrom(cfg, env, budget, i, t); Moves(cfg, t, u, most) && Within(u, t.processed + budget)
    decreases left
  {
    if left > 0 && budget > 0 {
      var u := FolderOf(cfg, env.quarantine(i), budget, false, t);
      FolderBound(cfg, env.quarantine(i), budget, false, t);
      OneMore(left - 1, budget);
      if u.end == Going {
        var rest: nat := budget - (u.processed - t.processed);
        MulMonotone(rest, budget, left - 1);
        QuarantineMoves(cfg, env, rest, i + 1, u, left - 1, most - budget);
        MovesOn(cfg, t, u, QuarantineFrom(cfg, env, rest, i + 1, u), budget, most - budget);
      }
    }
  }

  lemma MulMonotoneLeft(a: nat, b: nat, c: nat)
    requires a <= b
    ensures a * c <= b * c
  {
  }

  lemma OneMore(n: nat, b: nat)
    ensures (n + 1) * b == n * b + b
  {
  }

  lemma MulMonotone(a: nat, b: nat, c: nat)
    requires a <= b
    ensures c * a <= c * b
  {
  }

  // ----- one batch -----

  /** The most a batch can act on: every feedback folder loses the whole limit, or every quarantine folder
      loses the whole quarantine budget before the inbox uses up the limit. */
  function Worst(cfg: Settings, limit: nat): nat {
    Max(FeedbackFolders(cfg) * limit, limit + cfg.quarantineFolders * QuarantineBudget(cfg, limit))
  }

  lemma BudgetGrows(cfg: Settings, a: nat, b: nat)
    requires a <= b
    ensures QuarantineBudget(cfg, a) <= QuarantineBudget(cfg, b) <= b
  {
  }

  /** The rest of a batch after feedback folders without errors. */
  lemma RestBound(cfg: Settings, env: BatchEnv, limit: nat, fed: Tally)
    requires Sane(fed) && fed.end == Going && fed.lost == 0 && fed.processed < limit && fed.errors == 0
    ensures var remaining: nat := limit - fed.processed; var u := RestOf(cfg, env, limit, fed);
            Moves(cfg, fed, u, remaining + cfg.quarantineFolders * QuarantineBudget(cfg, remaining)) && Within(u, limit)
  {
    var remaining: nat := limit - fed.processed;
    var budget := QuarantineBudget(cfg, remaining);
    BudgetGrows(cfg, remaining, remaining);
    var checked := QuarantineFrom(cfg, env, budget, 0, fed);
    QuarantineMoves(cfg, env, budget, 0, fed, cfg.quarantineFolders, cfg.quarantineFolders * budget);
    if checked.end == Going && checked.processed < limit {
      FolderBound(cfg, env.inbox, limit - checked.processed, true, checked);
      MovesOn(cfg, fed, checked, FolderOf(cfg, env.inbox, limit - checked.processed, true, checked),
              cfg.quarantineFolders * budget, limit - checked.processed);
    }
  }

  /** A batch counts at most its limit, acts on no more but for what it loses, and on at most the worst. */
  lemma BatchBound(cfg: Settings, env: BatchEnv, limit: nat)
    ensures Moves(cfg, NOTHING, BatchOf(cfg, env, limit), Worst(cfg, limit)) && Within(BatchOf(cfg, env, limit), limit)
  {
    var fed := FeedbackFrom(cfg, env, limit, 0, NOTHING);
    FeedbackMoves(cfg, env, limit, 0, NOTHING, FeedbackFolders(cfg), FeedbackFolders(cfg) * limit);
    if fed.end == Going && fed.errors == 0 && fed.processed < limit {
      var remaining: nat := limit - fed.processed;
      RestBound(cfg, env, limit, fed);
      BudgetGrows(cfg, remaining, limit);
      MulMonotone(QuarantineBudget(cfg, remaining), QuarantineBudget(cfg, limit), cfg.quarantineFolders);
      MovesOn(cfg, NOTHING, fed, BatchOf(cfg, env, limit), fed.processed,
              remaining + cfg.quarantineFolders * QuarantineBudget(cfg, remaining));
    } else if fed.end == Going && fed.errors == 0 {
      assert QuarantineFrom(cfg, env, 0, 0, fed) == fed;
    }
  }

  // ----- the whole drain -----

  /** What the batches before have done: none of them lost anything, and each counted at most its size. */
  predicate SoFar(b: Bounds, i: nat, t: Tally) {
    t.end == Going && t.lost == 0 && t.acted == t.processed <= b.most && t.processed <= i * b.size
  }

  /** The most that can be acted on when the rounds are too few to use up the message limit. */
  function WithFewRounds(cfg: Settings, b: Bounds): nat
    requires b.rounds >= 1
  {
    (b.rounds - 1) * b.size + Worst(cfg, b.size)
  }

  /** Acted on, counted and lost messages at the end.  Only an abort leaves a message uncounted besides. */
  predicate Accounted(cfg: Settings, b: Bounds, d: Drained) {
    && d.tally.processed <= b.most && d.tally.processed + d.tally.lost <= d.tally.acted <= b.most + d.tally.lost
    && (d.tally.lost > 0 ==> d.stop in {BatchError, RuntimeReserve, Exception} && !LossFree(cfg))
    && (d.stop !in {RuntimeReserve, Exception} ==> d.tally.acted == d.tally.processed + d.tally.lost)
    && d.batches <= b.rounds && (d.stop == EnoughMessages ==> d.tally.processed == b.most)
  }

  /** With too few rounds even the worst last batch stays below this. */
  predicate FewRoundsSuffice(cfg: Settings, b: Bounds, d: Drained)
    requires b.rounds >= 1
  {
    b.rounds * b.size < b.most ==> d.tally.acted <= WithFewRounds(cfg, b)
  }

  lemma EndHere(cfg: Settings, b: Bounds, i: nat, t: Tally, stop: StopReason)
    requires SoFar(b, i, t) && i <= b.rounds && b.size <= b.most && b.rounds >= 1
    requires stop in {EnoughMessages, EnoughBatches, RuntimeReserve}
               && (stop == EnoughMessages ==> t.processed >= b.most)
    ensures Accounted(cfg, b, Drained(t, i, stop)) && FewRoundsSuffice(cfg, b, Drained(t, i, stop))
  {
    MulMonotoneLeft(i, b.rounds, b.size);
    OneMore(b.rounds - 1, b.size);
    assert Worst(cfg, b.size) >= 4 * b.size by { MulMonotoneLeft(4, FeedbackFolders(cfg), b.size); }
  }

  lemma EndWithBatch(cfg: Settings, b: Bounds, i: nat, t: Tally, limit: nat, batch: Tally, stop: StopReason, worst: nat)
    requires t.end == Going && t.lost == 0 && t.acted == t.processed <= b.most && i < b.rounds
               && limit <= b.most - t.processed
    requires Moves(cfg, NOTHING, batch, worst) && Within(batch, limit)
    requires batch.end == Going || stop == if batch.end == OutOfBudget then RuntimeReserve else Exception
    requires batch.end == Going ==>
               stop !in {RuntimeReserve, Exception, EnoughMessages} && (batch.errors > 0 ==> stop == BatchError)
    ensures Accounted(cfg, b, Ended(t, i, batch, stop)) && Ended(t, i, batch, stop).tally.acted == t.acted + batch.acted
  {
  }

  /** With too few rounds the last batch is one of full size. */
  lemma EndInFewRounds(cfg: Settings, b: Bounds, i: nat, t: Tally)
    requires SoFar(b, i, t) && i < b.rounds && b.rounds * b.size < b.most
    ensures Min(b.size, b.most - t.processed) == b.size && t.acted + Worst(cfg, b.size) <= WithFewRounds(cfg, b)
  {
    OneMore(b.rounds - 1, b.size);
    MulMonotoneLeft(i, b.rounds - 1, b.size);
  }

  /** A batch that the drain goes on after lost nothing. */
  lemma GoOn(cfg: Settings, b: Bounds, i: nat, t: Tally, limit: nat, batch: Tally)
    requires SoFar(b, i, t) && limit == Min(b.size, b.most - t.processed)
    requires Moves(cfg, NOTHING, batch, Worst(cfg, limit)) && Within(batch, limit) && batch.end == Going
               && batch.errors == 0
    ensures SoFar(b, i + 1, Merged(t, batch))
  {
    OneMore(i, b.size);
  }

  /** Every batch keeps its bounds. */
  ghost predicate Bounded(cfg: Settings, r: Rounds) {
    forall i, limit :: BatchKeeps(cfg, r.batch(i, limit), limit)
  }

  predicate BatchKeeps(cfg: Settings, batch: Tally, limit: nat) {
    Moves(cfg, NOTHING, batch, Worst(cfg, limit)) && Within(batch, limit)
  }

  lemma RoundsAreBounded(cfg: Settings, env: Environment)
    ensures Bounded(cfg, RoundsOf(cfg, env))
  {
    forall i: nat, limit: nat ensures BatchKeeps(cfg, RoundsOf(cfg, env).batch(i, limit), limit) {
      BatchBound(cfg, env.batch(i), limit);
    }
  }

  lemma EndAfter(cfg: Settings, r: Rounds, b: Bounds, i: nat, t: Tally, limit: nat, batch: Tally, stop: StopReason)
    requires SoFar(b, i, t) && i < b.rounds && t.processed < b.most && limit == Min(b.size, b.most - t.processed)
    requires BatchKeeps(cfg, batch, limit) && After(r.dryRun, batch, limit, r.left(i)) == Some(stop)
    ensures Accounted(cfg, b, Ended(t, i, batch, stop)) && FewRoundsSuffice(cfg, b, Ended(t, i, batch, stop))
  {
    EndWithBatch(cfg, b, i, t, limit, batch, stop, Worst(cfg, limit));
    if b.rounds * b.size < b.most { EndInFewRounds(cfg, b, i, t); }
  }

  lemma {:induction false} DrainBound(cfg: Settings, r: Rounds, b: Bounds, i: nat, t: Tally)
    requires Bounded(cfg, r) && SoFar(b, i, t) && i <= b.rounds && 1 <= b.size <= b.most && b.rounds >= 1
    ensures Accounted(cfg, b, DrainFrom(r, b, i, t)) && FewRoundsSuffice(cfg, b, DrainFrom(r, b, i, t))
    decreases b.rounds - i
  {
    if t.processed >= b.most {
      EndHere(cfg, b, i, t, EnoughMessages);
    } else if i == b.rounds {
      EndHere(cfg, b, i, t, EnoughBatches);
    } else if r.late(i) {
      EndHere(cfg, b, i, t, RuntimeReserve);
    } else {
      var limit := Min(b.size, b.most - t.processed);
      var batch := r.batch(i, limit);
      assert BatchKeeps(cfg, batch, limit);
      var stop := After(r.dryRun, batch, limit, r.left(i));
      if stop.Some? {
        EndAfter(cfg, r, b, i, t, limit, batch, stop.value);
      } else {
        GoOn(cfg, b, i, t, limit, batch);
        DrainBound(cfg, r, b, i + 1, Merged(t, batch));
      }
    }
  }

  /** Whatever the environment does, a drain counts at most its message limit and acts on no more but for
      the messages it loses; it loses any only in its last batch, with an error, and never in a dry run
      or without the scanner. */
  lemma ActedIsBoundedUpToLosses(cfg: Settings, env: Environment, batchSize: int, maxMessages: int, maxBatches: int)
    ensures var b, d := Normalised(batchSize, maxMessages, maxBatches),
              DrainOf(cfg, env, batchSize, maxMessages, maxBatches);
            Accounted(cfg, b, d) && FewRoundsSuffice(cfg, b, d)
  {
    RoundsAreBounded(cfg, env);
    DrainBound(cfg, RoundsOf(cfg, env), Normalised(batchSize, maxMessages, maxBatches), 0, NOTHING);
  }

  // ----- environments that lose as much as possible -----

  const IDLE := FolderEnv(Some(0), (_: nat) => Gone, (_: nat) => false, (_: nat, _: nat) => Works(true))

  /** A folder in which the same happens to all n messages. */
  function Full(n: nat, m: Examined): FolderEnv {
    FolderEnv(Some(n), (_: nat) => m, (_: nat) => false, (_: nat, _: nat) => Works(true))
  }

  function CleanBatch(n: nat): BatchEnv { BatchEnv((_: nat) => IDLE, (_: nat) => IDLE, Full(n, Settled(true))) }

  function LosingFeedback(n: nat): BatchEnv { BatchEnv((_: nat) => Full(n, Unrecorded), (_: nat) => IDLE, IDLE) }

  function LosingQuarantine(n: nat): BatchEnv {
    BatchEnv((_: nat) => IDLE, (_: nat) => Full(n, Unrecorded), Full(n, Settled(true)))
  }

  /** Full clean batches, then this one. */
  function CleanThen(q: nat, size: nat, last: BatchEnv): Environment {
    Environment((i: nat) => if i < q then CleanBatch(size) else last, (_: nat) => false, (_: nat) => Some(1))
  }

  function MoreCounted(t: Tally, n: nat): Tally { t.(processed := t.processed + n, acted := t.acted + n) }

  function MoreLost(t: Tally, n: nat): Tally { t.(acted := t.acted + n, lost := t.lost + n, errors := t.errors + n) }

  lemma {:induction false} SettledFolder(cfg: Settings, n: nat, count: nat, k: nat, t: Tally)
    requires k <= n && t.end == Going
    ensures FolderFrom(cfg, Full(count, Settled(true)), n, k, 0, t) == MoreCounted(t, n - k)
    decreases n - k
  {
    if k < n { SettledFolder(cfg, n, count, k + 1, MoreCounted(t, 1)); }
  }

  lemma {:induction false} LostFolder(cfg: Settings, n: nat, count: nat, k: nat, t: Tally)
    requires k <= n && t.end == Going && !LossFree(cfg)
    ensures FolderFrom(cfg, Full(count, Unrecorded), n, k, 0, t) == MoreLost(t, n - k)
    decreases n - k
  {
    if k < n { LostFolder(cfg, n, count, k + 1, MoreLost(t, 1)); }
  }

  lemma {:induction false} LostFeedbackFolder(cfg: Settings, limit: nat, n: nat, count: nat, k: nat, t: Tally)
    requires k <= n && t.end == Going && t.processed < limit && !LossFree(cfg)
    ensures FeedbackMessages(cfg, Full(count, Unrecorded), limit, n, k, t) == MoreLost(t, n - k)
    decreases n - k
  {
    if k < n { LostFeedbackFolder(cfg, limit, n, count, k + 1, MoreLost(t, 1)); }
  }

  lemma {:induction false} LostFeedback(cfg: Settings, limit: nat, i: nat, t: Tally)
    requires i <= FeedbackFolders(cfg) && t.end == Going && t.processed == 0 < limit && !LossFree(cfg)
    ensures FeedbackFrom(cfg, LosingFeedback(limit), limit, i, t) == MoreLost(t, (FeedbackFolders(cfg) - i) * limit)
    decreases FeedbackFolders(cfg) - i
  {
    if i < FeedbackFolders(cfg) {
      LostFeedbackFolder(cfg, limit, limit, limit, 0, t);
      LostFeedback(cfg, limit, i + 1, MoreLost(t, limit));
      OneMore(FeedbackFolders(cfg) - i - 1, limit);
    }
  }

  lemma {:induction false} IdleFeedback(cfg: Settings, env: BatchEnv, limit: nat, i: nat, t: Tally)
    requires i <= FeedbackFolders(cfg) && t.end == Going && forall k :: env.feedback(k) == IDLE
    ensures FeedbackFrom(cfg, env, limit, i, t) == t
    decreases FeedbackFolders(cfg) - i
  {
    if i < FeedbackFolders(cfg) { IdleFeedback(cfg, env, limit, i + 1, t); }
  }

  lemma {:induction false} IdleQuarantine(cfg: Settings, env: BatchEnv, budget: int, i: nat, t: Tally)
    requires i <= cfg.quarantineFolders && t.end == Going && forall k :: env.quarantine(k) == IDLE
    ensures QuarantineFrom(cfg, env, budget, i, t) == t
    decreases cfg.quarantineFolders - i
  {
    if i < cfg.quarantineFolders && budget > 0 {
      assert FolderOf(cfg, IDLE, budget, false, t) == t;
      IdleQuarantine(cfg, env, budget, i + 1, t);
    }
  }

  lemma {:induction false} LostQuarantine(cfg: Settings, n: nat, budget: nat, i: nat, t: Tally)
    requires i <= cfg.quarantineFolders && t.end == Going && !LossFree(cfg) && budget <= n
    ensures QuarantineFrom(cfg, LosingQuarantine(n), budget, i, t) == MoreLost(t, (cfg.quarantineFolders - i) * budget)
    decreases cfg.quarantineFolders - i
  {
    if i < cfg.quarantineFolders && budget > 0 {
      LostFolder(cfg, budget, n, 0, t);
      LostQuarantine(cfg, n, budget, i + 1, MoreLost(t, budget));
      OneMore(cfg.quarantineFolders - i - 1, budget);
    }
  }

  lemma CleanBatchIs(cfg: Settings, limit: nat)
    requires limit >= 1
    ensures BatchOf(cfg, CleanBatch(limit), limit) == MoreCounted(NOTHING, limit)
  {
    IdleFeedback(cfg, CleanBatch(limit), limit, 0, NOTHING);
    IdleQuarantine(cfg, CleanBatch(limit), QuarantineBudget(cfg, limit), 0, NOTHING);
    SettledFolder(cfg, limit, limit, 0, NOTHING);
  }

  lemma LosingFeedbackIs(cfg: Settings, limit: nat)
    requires limit >= 1 && !LossFree(cfg)
    ensures BatchOf(cfg, LosingFeedback(limit), limit) == MoreLost(NOTHING, FeedbackFolders(cfg) * limit)
  {
    LostFeedback(cfg, limit, 0, NOTHING);
    MulMonotoneLeft(4, FeedbackFolders(cfg), limit);
  }

  lemma LosingQuarantineIs(cfg: Settings, limit: nat)
    requires limit >= 1 && !LossFree(cfg)
    ensures BatchOf(cfg, LosingQuarantine(limit), limit)
            == MoreCounted(MoreLost(NOTHING, cfg.quarantineFolders * QuarantineBudget(cfg, limit)), limit)
  {
    var budget := QuarantineBudget(cfg, limit);
    BudgetGrows(cfg, limit, limit);
    IdleFeedback(cfg, LosingQuarantine(limit), limit, 0, NOTHING);
    LostQuarantine(cfg, limit, budget, 0, NOTHING);
    SettledFolder(cfg, limit, limit, 0, MoreLost(NOTHING, cfg.quarantineFolders * budget));
  }

  /** The batch that reaches the worst. */
  function WorstBatch(cfg: Settings, limit: nat): BatchEnv {
    if FeedbackFolders(cfg) * limit >= limit + cfg.quarantineFolders * QuarantineBudget(cfg, limit)
    then LosingFeedback(limit) else LosingQuarantine(limit)
  }

  lemma WorstIsReached(cfg: Settings, limit: nat)
    requires limit >= 1 && !LossFree(cfg)
    ensures var batch := BatchOf(cfg, WorstBatch(cfg, limit), limit);
            batch.end == Going && batch.errors > 0 && batch.acted == Worst(cfg, limit) > limit
  {
    LosingFeedbackIs(cfg, limit);
    LosingQuarantineIs(cfg, limit);
    MulMonotoneLeft(4, FeedbackFolders(cfg), limit);
  }

  lemma NextProduct(i: nat, q: nat, size: nat)
    requires i < q
    ensures i * size + size == (i + 1) * size <= q * size
  {
    OneMore(i, size);
    MulMonotoneLeft(i + 1, q, size);
  }

  /** Full clean batches follow each other. */
  lemma {:induction false} CleanRounds(r: Rounds, b: Bounds, q: nat, total: nat, i: nat, c: nat)
    requires !r.dryRun && i <= q < b.rounds && b.size >= 1 && total < b.most && total == q * b.size && c == i * b.size
    requires forall k | i <= k < q :: r.batch(k, b.size) == MoreCounted(NOTHING, b.size) && !r.late(k)
               && r.left(k) == Some(1)
    ensures DrainFrom(r, b, i, MoreCounted(NOTHING, c)) == DrainFrom(r, b, q, MoreCounted(NOTHING, total))
    decreases q - i
  {
    if i < q {
      NextProduct(i, q, b.size);
      CleanRound(r, b, i, c);
      CleanRounds(r, b, q, total, i + 1, c + b.size);
    }
  }

  lemma CleanRound(r: Rounds, b: Bounds, i: nat, c: nat)
    requires !r.dryRun && i < b.rounds && b.size >= 1 && c + b.size < b.most
    requires r.batch(i, b.size) == MoreCounted(NOTHING, b.size) && !r.late(i) && r.left(i) == Some(1)
    ensures DrainFrom(r, b, i, MoreCounted(NOTHING, c)) == DrainFrom(r, b, i + 1, MoreCounted(NOTHING, c + b.size))
  {
    assert Merged(MoreCounted(NOTHING, c), MoreCounted(NOTHING, b.size)) == MoreCounted(NOTHING, c + b.size);
  }

  /** A last batch that loses messages. */
  lemma LosingRound(r: Rounds, b: Bounds, i: nat, t: Tally, limit: nat, batch: Tally)
    requires i < b.rounds && t.processed < b.most && !r.late(i) && limit == Min(b.size, b.most - t.processed)
    requires r.batch(i, limit) == batch && batch.end == Going && batch.errors > 0
    ensures DrainFrom(r, b, i, t) == Drained(Merged(t, batch), i + 1, BatchError)
  {
  }

  lemma CleanThenRounds(cfg: Settings, q: nat, size: nat, last: BatchEnv)
    requires size >= 1
    ensures var r := RoundsOf(cfg, CleanThen(q, size, last));
            forall k: nat | k < q :: r.batch(k, size) == MoreCounted(NOTHING, size) && !r.late(k)
                && r.left(k) == Some(1)
  {
    CleanBatchIs(cfg, size);
  }

  /** After q full clean batches the worst batch can follow. */
  lemma WorstAfterCleanRounds(cfg: Settings, b: Bounds, q: nat, limit: nat)
    requires !LossFree(cfg) && b.size >= 1 && q < b.rounds && q * b.size < b.most
               && limit == Min(b.size, b.most - q * b.size)
    ensures DrainFrom(RoundsOf(cfg, CleanThen(q, b.size, WorstBatch(cfg, limit))), b, 0, NOTHING).tally.acted
            == q * b.size + Worst(cfg, limit)
  {
    var r := RoundsOf(cfg, CleanThen(q, b.size, WorstBatch(cfg, limit)));
    CleanThenRounds(cfg, q, b.size, WorstBatch(cfg, limit));
    CleanRounds(r, b, q, q * b.size, 0, 0);
    WorstIsReached(cfg, limit);
    LosingRound(r, b, q, MoreCounted(NOTHING, q * b.size), limit, BatchOf(cfg, WorstBatch(cfg, limit), limit));
  }

  // ----- exactly when the limit bounds what is acted on -----

  /** Nothing can be lost, or the rounds are too few to use up the limit even when the last one loses as
      much as possible. */
  predicate AlwaysBounded(cfg: Settings, b: Bounds)
    requires b.rounds >= 1
  {
    LossFree(cfg) || (b.rounds * b.size < b.most && WithFewRounds(cfg, b) <= b.most)
  }

  /** An environment in which a drain acts on more messages than its limit. */
  lemma BreaksTheLimit(cfg: Settings, b: Bounds) returns (env: Environment)
    requires b.rounds >= 1 && 1 <= b.size <= b.most && !AlwaysBounded(cfg, b)
    ensures DrainFrom(RoundsOf(cfg, env), b, 0, NOTHING).tally.acted > b.most
  {
    if b.rounds * b.size < b.most {
      OneMore(b.rounds - 1, b.size);
      WorstAfterCleanRounds(cfg, b, b.rounds - 1, b.size);
      env := CleanThen(b.rounds - 1, b.size, WorstBatch(cfg, b.size));
    } else {
      var q, limit := LastRound(b);
      WorstAfterCleanRounds(cfg, b, q, limit);
      WorstIsReached(cfg, limit);
      env := CleanThen(q, b.size, WorstBatch(cfg, limit));
    }
  }

  /** The round in which full batches reach the limit, and what is left for it. */
  lemma LastRound(b: Bounds) returns (q: nat, limit: nat)
    requires 1 <= b.size <= b.most <= b.rounds * b.size
    ensures q < b.rounds && q * b.size < b.most && limit == b.most - q * b.size == Min(b.size, b.most - q * b.size)
              && limit >= 1
  {
    q := (b.most - 1) / b.size;
    limit := b.most - q * b.size;
    if q >= b.rounds {
      MulMonotoneLeft(b.rounds, q, b.size);
    }
  }

  /** The message limit bounds what is acted on in every environment if and only if nothing can be lost or
      the rounds are too few. */
  lemma BoundedIff(cfg: Settings, batchSize: int, maxMessages: int, maxBatches: int)
    ensures var b := Normalised(batchSize, maxMessages, maxBatches);
            (forall env :: DrainOf(cfg, env, batchSize, maxMessages, maxBatches).tally.acted <= b.most) <==>
                AlwaysBounded(cfg, b)
  {
    var b := Normalised(batchSize, maxMessages, maxBatches);
    if AlwaysBounded(cfg, b) {
      forall env ensures DrainOf(cfg, env, batchSize, maxMessages, maxBatches).tally.acted <= b.most {
        ActedIsBoundedUpToLosses(cfg, env, batchSize, maxMessages, maxBatches);
      }
    } else {
      var env := BreaksTheLimit(cfg, b);
      assert DrainOf(cfg, env, batchSize, maxMessages, maxBatches).tally.acted > b.most;
    }
  }

  /** When the first batch loses everything in the feedback folders. */
  lemma LosingAtOnce(cfg: Settings, b: Bounds, lost: nat)
    requires !LossFree(cfg) && 1 <= b.size <= b.most && b.rounds >= 1 && lost == FeedbackFolders(cfg) * b.size > 0
    ensures DrainFrom(RoundsOf(cfg, CleanThen(0, b.size, LosingFeedback(b.size))), b, 0, NOTHING)
            == Drained(MoreLost(NOTHING, lost), 1, BatchError)
  {
    LosingFeedbackIs(cfg, b.size);
    LosingRound(RoundsOf(cfg, CleanThen(0, b.size, LosingFeedback(b.size))), b, 0, NOTHING, b.size,
                MoreLost(NOTHING, lost));
  }

  /** One infected message in each of the four feedback folders, and the action records fail: with a limit
      of one message, four are moved and none is counted. */
  lemma FourMovedUnderALimitOfOne(cfg: Settings, one: nat, maxBatches: int)
    requires one == 1 && cfg.learned == 0 && cfg.antivirus && !cfg.dryRun
    ensures Normalised(one, one, maxBatches).most == 1
    ensures DrainOf(cfg, CleanThen(0, one, LosingFeedback(one)), one, one, maxBatches)
            == Drained(MoreLost(NOTHING, 4), 1, BatchError)
  {
    LosingAtOnce(cfg, Normalised(one, one, maxBatches), 4);
  }
}
