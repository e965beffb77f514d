/** Why a folder is aborted, and how many errors it reports when it is not. */
module DrainEnds {
  import opened Drain
  import opened DrainCounts

  // ----- why a folder is aborted -----

  /** The budget runs out at the i-th message: restoring it, or classifying the group that is due there. */
  predicate BudgetGone(f: FolderEnv, i: nat, n: nat) {
    f.outOfBudget(i) || (i < n && f.message(i).Restored? && f.message(i).budget)
  }

  /** An exception escapes at the i-th message: from itself, or from routing the group that is due there. */
  ghost predicate Escapes(f: FolderEnv, i: nat, n: nat) {
    (i < n && f.message(i).Throws?) || exists j :: f.routed(i, j).Fails?
  }

  ghost predicate Cause(f: FolderEnv, i: nat, n: nat, end: End) {
    (end == OutOfBudget ==> BudgetGone(f, i, n)) && (end == Threw ==> Escapes(f, i, n))
  }

  lemma {:induction false} RouteEnds(f: FolderEnv, k: nat, n: nat, j: nat, t: Tally)
    requires j <= n && t.end == Going
    ensures RouteFrom(f, k, n, j, t).end
            == if exists i :: j <= i < n && f.routed(k, i).Fails? then Threw else Going
    decreases n - j
  {
    if j < n && f.routed(k, j).Works? { RouteEnds(f, k, n, j + 1, Counted(t, f.routed(k, j).ok)); }
  }

  /** A group is aborted if and only if its classification runs out of budget or routing one of it fails. */
  lemma GroupEnds(f: FolderEnv, k: nat, n: nat, t: Tally)
    requires t.end == Going
    ensures RouteGroup(f, k, n, t).end
            == if f.outOfBudget(k) then OutOfBudget
               else if exists j :: 0 <= j < n && f.routed(k, j).Fails? then Threw else Going
  {
    if !f.outOfBudget(k) { RouteEnds(f, k, n, 0, t); }
  }

  lemma AbortedStays(cfg: Settings, f: FolderEnv, n: nat, k: nat, waiting: nat, t: Tally)
    requires k <= n && t.end != Going
    ensures FolderFrom(cfg, f, n, k, waiting, t) == t
  {
  }

  /** A folder is aborted only at a message that is the cause of just this end. */
  lemma {:induction false} FolderAborts(cfg: Settings, f: FolderEnv, n: nat, k: nat, waiting: nat, t: Tally)
    returns (i: nat)
    requires k <= n && t.end == Going && FolderFrom(cfg, f, n, k, waiting, t).end != Going
    ensures k <= i <= n && Cause(f, i, n, FolderFrom(cfg, f, n, k, waiting, t).end)
    decreases n - k
  {
    i := k;
    if k == n {
      GroupEnds(f, n, waiting, t);
    } else {
      var m := Happens(cfg, f.message(k));
      var u, more := t, waiting + 1;
      if !m.Waiting? {
        u, more := ExamineOf(m, t), waiting;
      } else if waiting + 1 >= cfg.prefetch {
        GroupEnds(f, k, waiting + 1, t);
        u, more := RouteGroup(f, k, waiting + 1, t), 0;
      }
      if u.end == Going {
        i := FolderAborts(cfg, f, n, k + 1, more, u);
      } else {
        AbortedStays(cfg, f, n, k + 1, more, u);
      }
    }
  }

  /** A message of a feedback folder aborts it if and only if restoring or classifying it runs out of budget, or
      an exception escapes from it or from its routing. */
  lemma FeedbackEnds(cfg: Settings, f: FolderEnv, k: nat, t: Tally)
    requires t.end == Going
    ensures var m := f.message(k);
            FeedbackMessage(cfg, f, k, t).end
            == if (m.Waiting? && f.outOfBudget(k)) || (m.Restored? && m.budget) then OutOfBudget
               else if (m.Waiting? && f.routed(k, 0).Fails?) || m.Throws? then Threw
               else Going
  {
    if f.message(k).Waiting? { RouteEnds(f, k, 1, 0, t); }
  }

  /** A feedback folder is aborted only at such a message. */
  lemma {:induction false} FeedbackAborts(cfg: Settings, f: FolderEnv, limit: nat, n: nat, k: nat, t: Tally)
    returns (i: nat)
    requires k <= n && t.end == Going && FeedbackMessages(cfg, f, limit, n, k, t).end != Going
    ensures k <= i < n && Cause(f, i, n, FeedbackMessages(cfg, f, limit, n, k, t).end)
    decreases n - k
  {
    var u := FeedbackMessage(cfg, f, k, t);
    FeedbackEnds(cfg, f, k, t);
    if u.end == Going {
      i := FeedbackAborts(cfg, f, limit, n, k + 1, u);
    } else {
      i := k;
    }
  }

  // ----- the errors of a folder -----

  /** The errors that a message reports: its own failure, and an uncertain scan. */
  function ErrorsOf(m: Examined): nat {
    match m
    case Unreadable => 1
    case Unrecorded => 1
    case Blocked(ok, uncertain) => (if ok then 0 else 1) + (if uncertain then 1 else 0)
    case Settled(ok) => if ok then 0 else 1
    case Restored(_, ok) => if ok then 0 else 1
    case _ => 0
  }

  function Reported(cfg: Settings, f: FolderEnv, k: nat, n: nat): nat
    decreases n - k
  {
    if k >= n then 0 else ErrorsOf(Happens(cfg, f.message(k))) + Reported(cfg, f, k + 1, n)
  }

  function Routings(f: FolderEnv, k: nat, n: nat): nat
    decreases n - k
  {
    if k >= n then 0 else (if f.message(k).Waiting? then 1 else 0) + Routings(f, k + 1, n)
  }

  predicate Reports(t: Tally, u: Tally, least: nat, more: nat)
      { t.errors + least <= u.errors <= t.errors + least + more }

  lemma {:induction false} RouteReports(f: FolderEnv, k: nat, n: nat, j: nat, t: Tally)
    requires j <= n && t.end == Going && RouteFrom(f, k, n, j, t).end == Going
    ensures Reports(t, RouteFrom(f, k, n, j, t), 0, n - j)
    ensures (forall i | j <= i < n :: f.routed(k, i) == Works(true)) ==> RouteFrom(f, k, n, j, t).errors == t.errors
    ensures (forall i | j <= i < n :: f.routed(k, i) == Works(false)) ==>
              RouteFrom(f, k, n, j, t).errors == t.errors + n - j
    decreases n - j
  {
    if j < n { RouteReports(f, k, n, j + 1, Counted(t, f.routed(k, j).ok)); }
  }

  /** A folder that is not aborted reports the errors of all its messages, and at most one more for each message
      that is routed. */
  lemma {:induction false} FolderReports(cfg: Settings, f: FolderEnv, n: nat, k: nat, waiting: nat, t: Tally)
    requires k <= n && t.end == Going && FolderFrom(cfg, f, n, k, waiting, t).end == Going
    ensures Reports(t, FolderFrom(cfg, f, n, k, waiting, t), Reported(cfg, f, k, n), Routings(f, k, n) + waiting)
    decreases n - k
  {
    if k == n {
      if waiting > 0 { RouteReports(f, n, waiting, 0, t); }
    } else {
      var m := Happens(cfg, f.message(k));
      if !m.Waiting? {
        FolderReports(cfg, f, n, k + 1, waiting, ExamineOf(m, t));
      } else if waiting + 1 >= cfg.prefetch {
        RouteReports(f, k, waiting + 1, 0, t);
        FolderReports(cfg, f, n, k + 1, 0, RouteGroup(f, k, waiting + 1, t));
      } else {
        FolderReports(cfg, f, n, k + 1, waiting + 1, t);
      }
    }
  }
}
