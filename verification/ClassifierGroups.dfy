/** The recursion over a group of messages around an unreliable model, and the join of all groups in
    whatever order they complete. */
module ClassifierGroups {
  import opened Common
  import opened Classifier

  /** What one request comes to.  `Failed` stands for every other exception. */
  datatype BatchReply = OutOfBudget | Unavailable | QueueTimeout | UpstreamTimeout | Truncated | Failed
                      | Entries(entries: seq<Entry>)

  datatype SingleReply = NoBudget | NoAnswer | Answered(c: Classification)

  /** The model: its reply to a group (by message indices) and to a single message, at every depth. */
  datatype Oracle = Oracle(batch: (seq<nat>, nat) -> BatchReply, single: (nat, nat) -> SingleReply)

  /** The split configuration. */
  datatype Config = Config(maxDepth: nat, splitTimeouts: bool, smallerGroups: bool)

  /** A result, whether it is a fallback, and in how many group calls the message took part. */
  datatype Tried = Tried(c: Classification, fallback: bool, tries: nat)

  datatype Outcome = Aborted | Finished(results: seq<Tried>)

  function FallbackFor(rules: nat -> Context, i: nat): Tried { Tried(Fallback(rules(i)), true, 1) }

  function AllFallback(rules: nat -> Context, group: seq<nat>): Outcome {
    Finished(seq(|group|, k requires 0 <= k < |group| => FallbackFor(rules, group[k])))
  }

  function OneMore(t: Tried): Tried { t.(tries := t.tries + 1) }

  function JoinHalves(left: Outcome, right: Outcome): Outcome {
    if left.Aborted? || right.Aborted? then Aborted
    else
      var all := left.results + right.results;
      Finished(seq(|all|, k requires 0 <= k < |all| => OneMore(all[k])))
  }

  /** Whether a failed batch is split: timeouts and other failures have their own switch, and an
      unreachable model or a full queue is never retried. */
  predicate Splits(cfg: Config, reply: BatchReply, depth: nat) {
    && depth < cfg.maxDepth
    && ((reply.UpstreamTimeout? && cfg.splitTimeouts) || ((reply.Truncated? || reply.Failed? || reply.Entries?)
                                                          && cfg.smallerGroups))
  }

  ghost function ClassifyGroup(cfg: Config, oracle: Oracle, rules: nat -> Context, group: seq<nat>, depth: nat): Outcome
    decreases |group|
  {
    if group == [] then Finished([])
    else if |group| == 1 then
      match oracle.single(group[0], depth)
      case NoBudget => Aborted
      case NoAnswer => Finished([FallbackFor(rules, group[0])])
      case Answered(c) => Finished([Tried(c, false, 1)])
    else
      var reply := oracle.batch(group, depth);
      var answers := if reply.Entries? then Answers(reply.entries, LocalIds(|group|)) else None;
      if reply.OutOfBudget? then Aborted
      else if answers.Some? then
        Finished(seq(|group|, k requires 0 <= k < |group| =>
                       Tried(if k < |answers.value| then answers.value[k] else Fallback(NO_RULE), false, 1)))
      else if Splits(cfg, reply, depth) then
        JoinHalves(ClassifyGroup(cfg, oracle, rules, group[..|group| / 2], depth + 1),
                   ClassifyGroup(cfg, oracle, rules, group[|group| / 2..], depth + 1))
      else AllFallback(rules, group)
  }

  function Fallbacks(results: seq<Tried>): nat {
    if results == [] then 0 else Fallbacks(results[..|results| - 1]) + (if results[|results| - 1].fallback then 1
          else 0)
  }

  lemma {:induction false} FallbacksConcat(a: seq<Tried>, b: seq<Tried>)
    ensures Fallbacks(a + b) == Fallbacks(a) + Fallbacks(b)
  {
    if b == [] {
      assert a + b == a;
    } else {
      assert (a + b)[..|a + b| - 1] == a + b[..|b| - 1];
      FallbacksConcat(a, b[..|b| - 1]);
    }
  }

  lemma {:induction false} FallbacksOneMore(all: seq<Tried>)
    ensures Fallbacks(seq(|all|, k requires 0 <= k < |all| => OneMore(all[k]))) == Fallbacks(all)
  {
    if all != [] {
      var more, front := seq(|all|, k requires 0 <= k < |all| => OneMore(all[k])), all[..|all| - 1];
      assert more[..|more| - 1] == seq(|front|, k requires 0 <= k < |front| => OneMore(front[k]));
      FallbacksOneMore(front);
    }
  }

  lemma {:induction false} FallbacksAll(results: seq<Tried>, fallback: bool)
    requires forall k | 0 <= k < |results| :: results[k].fallback == fallback
    ensures Fallbacks(results) == if fallback then |results| else 0
  {
    if results != [] {
      FallbacksAll(results[..|results| - 1], fallback);
    }
  }

  // ----- the recursion as the program runs it -----

  /** A request for a group at a depth of the split. */
  datatype Call = Call(group: seq<nat>, depth: nat)

  ghost predicate BatchAnswered(oracle: Oracle, group: seq<nat>, depth: nat) {
    var reply := oracle.batch(group, depth);
    reply.Entries? && Complete(reply.entries, LocalIds(|group|))
  }

  /** The requests that classifying this group makes. */
  ghost function Calls(cfg: Config, oracle: Oracle, rules: nat -> Context, group: seq<nat>, depth: nat): set<Call>
    decreases |group|
  {
    if group == [] then {}
    else if |group| == 1 || BatchAnswered(oracle, group, depth) || !Splits(cfg, oracle.batch(group, depth), depth) then
      {Call(group, depth)}
    else
      var left, right := group[..|group| / 2], group[|group| / 2..];
      {Call(group, depth)} + Calls(cfg, oracle, rules, left, depth + 1)
      + (if ClassifyGroup(cfg, oracle, rules, left, depth + 1).Aborted? then {}
         else Calls(cfg, oracle, rules, right, depth + 1))
  }

  class Runner {
    const cfg: Config
    const oracle: Oracle
    const rules: nat -> Context
    var fallbackMessages: nat
    ghost var calls: set<Call>

    constructor (cfg: Config, oracle: Oracle, rules: nat -> Context)
      ensures this.cfg == cfg && this.oracle == oracle && this.rules == rules && fallbackMessages == 0 && calls == {}
    {
      this.cfg, this.oracle, this.rules, this.fallbackMessages, this.calls := cfg, oracle, rules, 0, {};
    }

    /** A single message: any failure but an exhausted budget is a fallback. */
    method CallSingle(i: nat, depth: nat) returns (r: Outcome)
      modifies this
      ensures r == ClassifyGroup(cfg, oracle, rules, [i], depth)
      ensures fallbackMessages == old(fallbackMessages) + if r.Finished? then Fallbacks(r.results) else 0
      ensures calls == old(calls) + {Call([i], depth)}
    {
      calls := calls + {Call([i], depth)};
      match oracle.single(i, depth) {
        case NoBudget => r := Aborted;
        case NoAnswer =>
          fallbackMessages := fallbackMessages + 1;
          r := Finished([FallbackFor(rules, i)]);
          FallbacksAll(r.results, true);
        case Answered(c) =>
          r := Finished([Tried(c, false, 1)]);
          FallbacksAll(r.results, false);
      }
    }

    /** The two halves of a group whose own request failed. */
    method SplitGroup(group: seq<nat>, depth: nat) returns (r: Outcome)
      requires |group| > 1 && !BatchAnswered(oracle, group, depth) && Splits(cfg, oracle.batch(group, depth), depth)
      requires Call(group, depth) in calls
      modifies this
      ensures r == ClassifyGroup(cfg, oracle, rules, group, depth)
      ensures r.Finished? ==> fallbackMessages == old(fallbackMessages) + Fallbacks(r.results)
      ensures calls == old(calls) + Calls(cfg, oracle, rules, group, depth)
      decreases |group|, 0
    {
      var middle := |group| / 2;
      var left := ClassifyModelGroup(group[..middle], depth + 1);
      if left.Aborted? {
        return Aborted;
      }
      var right := ClassifyModelGroup(group[middle..], depth + 1);
      r := JoinHalves(left, right);
      if right.Finished? {
        FallbacksConcat(left.results, right.results);
        FallbacksOneMore(left.results + right.results);
      }
    }

    /** One group at one depth of the split. */
    method ClassifyModelGroup(group: seq<nat>, depth: nat) returns (r: Outcome)
      modifies this
      ensures r == ClassifyGroup(cfg, oracle, rules, group, depth)
      ensures r.Finished? ==> fallbackMessages == old(fallbackMessages) + Fallbacks(r.results)
      ensures calls == old(calls) + Calls(cfg, oracle, rules, group, depth)
      decreases |group|, 1
    {
      if group == [] {
        return Finished([]);
      }
      if |group| == 1 {
        assert group == [group[0]];
        r := CallSingle(group[0], depth);
        return;
      }
      var reply := oracle.batch(group, depth);
      calls := calls + {Call(group, depth)};
      if reply.OutOfBudget? {
        return Aborted;
      }
      if reply.Entries? {
        var answers := ParseBatch(reply.entries, LocalIds(|group|));
        if answers.Some? {
          r := Finished(seq(|group|, k requires 0 <= k < |group| => Tried(answers.value[k], false, 1)));
          FallbacksAll(r.results, false);
          return;
        }
      }
      if Splits(cfg, reply, depth) {
        r := SplitGroup(group, depth);
        return;
      }
      fallbackMessages := fallbackMessages + |group|;
      r := AllFallback(rules, group);
      FallbacksAll(r.results, true);
    }
  }

  // ----- what the recursion guarantees -----

  /** The reply to this request holds, under the message's own id, this classification. */
  ghost predicate CallAnswers(oracle: Oracle, call: Call, i: nat, c: Classification) {
    if |call.group| == 1 then call.group == [i] && oracle.single(i, call.depth) == Answered(c)
    else
      && oracle.batch(call.group, call.depth).Entries?
      && exists k :: BatchEntry(oracle.batch(call.group, call.depth).entries, call.group, k, i, c)
  }

  ghost predicate BatchEntry(entries: seq<Entry>, group: seq<nat>, k: nat, i: nat, c: Classification) {
    k < |group| && group[k] == i && OwnEntry(entries, LocalId(k), c)
  }

  /** The result comes from the message's own fallback or from the model's own entry for it, in the reply
      to one of these requests. */
  ghost predicate Own(cfg: Config, oracle: Oracle, rules: nat -> Context, calls: set<Call>, i: nat, t: Tried) {
    if t.fallback then t.c == Fallback(rules(i)) && exists call :: call in calls && CallFails(cfg, oracle, call, i)
    else exists call :: call in calls && CallAnswers(oracle, call, i, t.c)
  }

  /** The request for this message gave nothing that can be used, and is not repeated with smaller groups: the
      model was out of reach or its queue was full, or splitting is switched off or at its end. */
  ghost predicate CallFails(cfg: Config, oracle: Oracle, call: Call, i: nat) {
    if |call.group| == 1 then call.group == [i] && oracle.single(i, call.depth) == NoAnswer
    else
      && i in call.group
      && match oracle.batch(call.group, call.depth)
         case OutOfBudget => false
         case Unavailable => true
         case QueueTimeout => true
         case UpstreamTimeout => !cfg.splitTimeouts || call.depth >= cfg.maxDepth
         case Truncated => !cfg.smallerGroups || call.depth >= cfg.maxDepth
         case Failed => !cfg.smallerGroups || call.depth >= cfg.maxDepth
         case Entries(entries) => !Complete(entries, LocalIds(|call.group|))
                                  && (!cfg.smallerGroups || call.depth >= cfg.maxDepth)
  }

  /** One result for each message, in order, each its own, each tried at most this often. */
  ghost predicate Sound(cfg: Config, oracle: Oracle, rules: nat -> Context, calls: set<Call>, group: seq<nat>,
                        results: seq<Tried>, most: nat) {
    |results| == |group| &&
    forall k | 0 <= k < |group| :: Own(cfg, oracle, rules, calls, group[k], results[k]) && 1 <= results[k].tries <= most
  }

  /** The results of two lists one after the other. */
  lemma SoundConcat(cfg: Config, oracle: Oracle, rules: nat -> Context, calls: set<Call>, a: seq<nat>, x: seq<Tried>,
                    more: set<Call>, b: seq<nat>,
                    y: seq<Tried>, most: nat)
    requires Sound(cfg, oracle, rules, calls, a, x, most) && Sound(cfg, oracle, rules, more, b, y, most)
    ensures Sound(cfg, oracle, rules, calls + more, a + b, x + y, most)
  {
    forall k | 0 <= k < |a + b| ensures Own(cfg, oracle, rules, calls + more, (a + b)[k], (x + y)[k])
        && 1 <= (x + y)[k].tries <= most {
      if k < |a| {
        assert Own(cfg, oracle, rules, calls, a[k], x[k]);
      } else {
        assert Own(cfg, oracle, rules, more, b[k - |a|], y[k - |a|]);
      }
    }
  }

  lemma MoreIsFine(cfg: Config, oracle: Oracle, rules: nat -> Context, calls: set<Call>, group: seq<nat>,
                   results: seq<Tried>, most: nat, all: set<Call>, more: nat)
    requires Sound(cfg, oracle, rules, calls, group, results, most) && most <= more && calls <= all
    ensures Sound(cfg, oracle, rules, all, group, results, more)
  {
    forall k | 0 <= k < |group| ensures Own(cfg, oracle, rules, all, group[k], results[k]) {
      assert Own(cfg, oracle, rules, calls, group[k], results[k]);
    }
  }

  lemma JoinIsSound(cfg: Config, oracle: Oracle, rules: nat -> Context, calls: set<Call>, group: seq<nat>, a: Outcome,
                    b: Outcome,
                    most: nat)
    requires a.Finished? && b.Finished? && Sound(cfg, oracle, rules, calls, group, a.results + b.results, most)
    ensures Sound(cfg, oracle, rules, calls, group, JoinHalves(a, b).results, most + 1)
  {
    var all := a.results + b.results;
    forall k | 0 <= k < |group|
      ensures Own(cfg, oracle, rules, calls, group[k], OneMore(all[k])) && 1 <= OneMore(all[k]).tries <= most + 1
    {
      assert Own(cfg, oracle, rules, calls, group[k], all[k]);
    }
  }

  lemma AnswersAreSound(cfg: Config, oracle: Oracle, rules: nat -> Context, group: seq<nat>, depth: nat,
                        results: seq<Tried>)
    requires |group| > 1 && BatchAnswered(oracle, group, depth)
    requires |results| == |group| && forall k | 0 <= k < |group| ::
               results[k] == Tried(Answers(oracle.batch(group, depth).entries, LocalIds(|group|)).value[k], false, 1)
    ensures Sound(cfg, oracle, rules, {Call(group, depth)}, group, results, 1)
  {
    var ids := LocalIds(|group|);
    forall k | 0 <= k < |group| ensures Own(cfg, oracle, rules, {Call(group, depth)}, group[k], results[k]) {
      AnswersAreOwn(oracle.batch(group, depth).entries, ids, k);
      assert BatchEntry(oracle.batch(group, depth).entries, group, k, group[k], results[k].c);
      assert CallAnswers(oracle, Call(group, depth), group[k], results[k].c);
    }
  }

  lemma SingleIsSound(cfg: Config, oracle: Oracle, rules: nat -> Context, i: nat, depth: nat)
    requires ClassifyGroup(cfg, oracle, rules, [i], depth).Finished?
    ensures Sound(cfg, oracle, rules, {Call([i], depth)}, [i], ClassifyGroup(cfg, oracle, rules, [i], depth).results, 1)
  {
    var t := ClassifyGroup(cfg, oracle, rules, [i], depth).results[0];
    assert if t.fallback then CallFails(cfg, oracle, Call([i], depth), i)
        else CallAnswers(oracle, Call([i], depth), i, t.c);
  }

  lemma FallbackIsSound(cfg: Config, oracle: Oracle, rules: nat -> Context, group: seq<nat>, depth: nat)
    requires |group| > 1 && !BatchAnswered(oracle, group, depth)
    requires !oracle.batch(group, depth).OutOfBudget? && !Splits(cfg, oracle.batch(group, depth), depth)
    ensures Sound(cfg, oracle, rules, {Call(group, depth)}, group, AllFallback(rules, group).results, 1)
  {
    forall k | 0 <= k < |group| ensures CallFails(cfg, oracle, Call(group, depth), group[k]) {}
  }

  /** Whatever the model does: unless the budget runs out, a group yields one result for each message in
      order, every result is the message's own from a request that was made for it, and no message takes
      part in more group calls than the split depth allows. */
  lemma {:induction false} GroupIsSound(cfg: Config, oracle: Oracle, rules: nat -> Context, group: seq<nat>, depth: nat)
    requires ClassifyGroup(cfg, oracle, rules, group, depth).Finished? && depth <= cfg.maxDepth
    ensures Sound(cfg, oracle, rules, Calls(cfg, oracle, rules, group, depth), group,
                  ClassifyGroup(cfg, oracle, rules, group, depth).results,
                  cfg.maxDepth - depth + 1)
    decreases |group|, 1
  {
    var r, calls := ClassifyGroup(cfg, oracle, rules, group, depth), Calls(cfg, oracle, rules, group, depth);
    var most := cfg.maxDepth - depth + 1;
    if group == [] {
    } else if |group| == 1 {
      assert group == [group[0]];
      SingleIsSound(cfg, oracle, rules, group[0], depth);
      MoreIsFine(cfg, oracle, rules, calls, group, r.results, 1, calls, most);
    } else if BatchAnswered(oracle, group, depth) {
      AnswersAreSound(cfg, oracle, rules, group, depth, r.results);
      MoreIsFine(cfg, oracle, rules, calls, group, r.results, 1, calls, most);
    } else if Splits(cfg, oracle.batch(group, depth), depth) {
      SplitIsSound(cfg, oracle, rules, group, depth);
    } else {
      FallbackIsSound(cfg, oracle, rules, group, depth);
      MoreIsFine(cfg, oracle, rules, calls, group, r.results, 1, calls, most);
    }
  }

  lemma {:induction false} SplitIsSound(cfg: Config, oracle: Oracle, rules: nat -> Context, group: seq<nat>, depth: nat)
    requires ClassifyGroup(cfg, oracle, rules, group, depth).Finished? && depth <= cfg.maxDepth
    requires |group| > 1 && !BatchAnswered(oracle, group, depth) && Splits(cfg, oracle.batch(group, depth), depth)
    ensures Sound(cfg, oracle, rules, Calls(cfg, oracle, rules, group, depth), group,
                  ClassifyGroup(cfg, oracle, rules, group, depth).results,
                  cfg.maxDepth - depth + 1)
    decreases |group|, 0
  {
    var left, right := group[..|group| / 2], group[|group| / 2..];
    var a, b := ClassifyGroup(cfg, oracle, rules, left, depth + 1), ClassifyGroup(cfg, oracle, rules, right, depth + 1);
    var before, after := Calls(cfg, oracle, rules, left, depth + 1), Calls(cfg, oracle, rules, right, depth + 1);
    GroupIsSound(cfg, oracle, rules, left, depth + 1);
    GroupIsSound(cfg, oracle, rules, right, depth + 1);
    SoundConcat(cfg, oracle, rules, before, left, a.results, after, right, b.results, cfg.maxDepth - depth);
    assert left + right == group;
    MoreIsFine(cfg, oracle, rules, before + after, group, a.results + b.results, cfg.maxDepth - depth,
               Calls(cfg, oracle, rules, group, depth), cfg.maxDepth - depth);
    JoinIsSound(cfg, oracle, rules, Calls(cfg, oracle, rules, group, depth), group, a, b, cfg.maxDepth - depth);
  }

  // ----- which requests are made -----

  ghost predicate RunsOut(oracle: Oracle, call: Call) {
    if |call.group| == 1 then oracle.single(call.group[0], call.depth) == NoBudget
    else oracle.batch(call.group, call.depth).OutOfBudget?
  }

  /** A group is aborted if and only if the budget runs out at one of its requests. */
  lemma {:induction false} AbortedIff(cfg: Config, oracle: Oracle, rules: nat -> Context, group: seq<nat>, depth: nat)
    ensures ClassifyGroup(cfg, oracle, rules, group, depth).Aborted?
            <==> exists call :: call in Calls(cfg, oracle, rules, group, depth) && RunsOut(oracle, call)
    decreases |group|
  {
    if |group| > 1 && !BatchAnswered(oracle, group, depth) && Splits(cfg, oracle.batch(group, depth), depth) {
      AbortedIff(cfg, oracle, rules, group[..|group| / 2], depth + 1);
      AbortedIff(cfg, oracle, rules, group[|group| / 2..], depth + 1);
      assert !RunsOut(oracle, Call(group, depth));
    } else if group != [] {
      assert Calls(cfg, oracle, rules, group, depth) == {Call(group, depth)};
      assert ClassifyGroup(cfg, oracle, rules, group, depth).Aborted? <==> RunsOut(oracle, Call(group, depth));
    }
  }

  /** n halved k times, rounded down and rounded up. */
  function Least(n: nat, k: nat): nat { if k == 0 then n else Least(n / 2, k - 1) }
  function Most(n: nat, k: nat): nat { if k == 0 then n else Most((n + 1) / 2, k - 1) }

  lemma {:induction false} HalvesOrdered(m: nat, n: nat, k: nat)
    requires m <= n
    ensures Least(m, k) <= Least(n, k) && Most(m, k) <= Most(n, k)
  {
    if k > 0 {
      HalvesOrdered(m / 2, n / 2, k - 1);
      HalvesOrdered((m + 1) / 2, (n + 1) / 2, k - 1);
    }
  }

  /** The request is for messages of the group, which has been halved at each level of the split. */
  ghost predicate Halved(cfg: Config, group: seq<nat>, depth: nat, call: Call) {
    && depth <= call.depth && (call.depth == depth || call.depth <= cfg.maxDepth)
    && Least(|group|, call.depth - depth) <= |call.group| <= Most(|group|, call.depth - depth)
    && forall i | i in call.group :: i in group
  }

  lemma HalfOfGroup(cfg: Config, group: seq<nat>, depth: nat, half: seq<nat>, call: Call)
    requires Halved(cfg, half, depth + 1, call) && depth < cfg.maxDepth
    requires half == group[..|group| / 2] || half == group[|group| / 2..]
    ensures Halved(cfg, group, depth, call)
  {
    assert |group| / 2 <= |half| <= (|group| + 1) / 2 && forall i | i in half :: i in group;
    HalvesOrdered(|group| / 2, |half|, call.depth - depth - 1);
    HalvesOrdered(|half|, (|group| + 1) / 2, call.depth - depth - 1);
  }

  lemma WholeIsHalved(cfg: Config, group: seq<nat>, depth: nat)
    ensures Halved(cfg, group, depth, Call(group, depth))
  {
  }

  lemma CallIsInAHalf(cfg: Config, oracle: Oracle, rules: nat -> Context, group: seq<nat>, depth: nat, call: Call)
    returns (half: seq<nat>)
    requires call in Calls(cfg, oracle, rules, group, depth) && call != Call(group, depth)
    ensures |half| < |group| && depth < cfg.maxDepth && call in Calls(cfg, oracle, rules, half, depth + 1)
    ensures half == group[..|group| / 2] || half == group[|group| / 2..]
  {
    var left, right := group[..|group| / 2], group[|group| / 2..];
    half := if call in Calls(cfg, oracle, rules, left, depth + 1) then left else right;
  }

  lemma {:induction false} CallsAreHalves(cfg: Config, oracle: Oracle, rules: nat -> Context, group: seq<nat>,
                                          depth: nat, call: Call)
    requires call in Calls(cfg, oracle, rules, group, depth)
    ensures Halved(cfg, group, depth, call)
    decreases |group|
  {
    if call == Call(group, depth) {
      WholeIsHalved(cfg, group, depth);
    } else {
      var half := CallIsInAHalf(cfg, oracle, rules, group, depth, call);
      CallsAreHalves(cfg, oracle, rules, half, depth + 1, call);
      HalfOfGroup(cfg, group, depth, half, call);
    }
  }

  /** Once the budget has run out nothing more is asked for the group. */
  lemma {:induction false} AbortEndsRequests(cfg: Config, oracle: Oracle, rules: nat -> Context, group: seq<nat>,
                                             depth: nat, a: Call, b: Call)
    requires a in Calls(cfg, oracle, rules, group, depth) && b in Calls(cfg, oracle, rules, group, depth)
    requires RunsOut(oracle, a) && RunsOut(oracle, b)
    ensures a == b
    decreases |group|
  {
    if |group| > 1 && !BatchAnswered(oracle, group, depth) && Splits(cfg, oracle.batch(group, depth), depth) {
      var left, right := group[..|group| / 2], group[|group| / 2..];
      assert !RunsOut(oracle, Call(group, depth));
      AbortedIff(cfg, oracle, rules, left, depth + 1);
      if a in Calls(cfg, oracle, rules, left, depth + 1) {
        AbortEndsRequests(cfg, oracle, rules, left, depth + 1, a, b);
      } else {
        AbortEndsRequests(cfg, oracle, rules, right, depth + 1, a, b);
      }
    }
  }

  // ----- how many requests are made for a message -----

  predicate NoRepeats(group: seq<nat>) { forall i, j | 0 <= i < j < |group| :: group[i] != group[j] }

  /** The requests that ask for message i. */
  ghost function AskingFor(calls: set<Call>, i: nat): set<Call> { set call | call in calls && i in call.group }

  lemma NoCallsForOthers(cfg: Config, oracle: Oracle, rules: nat -> Context, group: seq<nat>, depth: nat, i: nat)
    requires i !in group
    ensures AskingFor(Calls(cfg, oracle, rules, group, depth), i) == {}
  {
    forall call | call in Calls(cfg, oracle, rules, group, depth) ensures i !in call.group {
      CallsAreHalves(cfg, oracle, rules, group, depth, call);
    }
  }

  lemma OwnCallIsNotBelow(cfg: Config, oracle: Oracle, rules: nat -> Context, group: seq<nat>, depth: nat,
                          half: seq<nat>)
    ensures Call(group, depth) !in Calls(cfg, oracle, rules, half, depth + 1)
  {
    if Call(group, depth) in Calls(cfg, oracle, rules, half, depth + 1) {
      CallsAreHalves(cfg, oracle, rules, half, depth + 1, Call(group, depth));
    }
  }

  /** A result counts exactly the requests that were made for its message. */
  lemma {:induction false} TriesAreRequests(cfg: Config, oracle: Oracle, rules: nat -> Context, group: seq<nat>,
                                            depth: nat, k: nat)
    requires ClassifyGroup(cfg, oracle, rules, group, depth).Finished? && NoRepeats(group)
    requires k < |group| == |ClassifyGroup(cfg, oracle, rules, group, depth).results|
    ensures ClassifyGroup(cfg, oracle, rules, group, depth).results[k].tries
            == |AskingFor(Calls(cfg, oracle, rules, group, depth), group[k])|
    decreases |group|
  {
    var own := Call(group, depth);
    if |group| > 1 && !BatchAnswered(oracle, group, depth) && Splits(cfg, oracle.batch(group, depth), depth) {
      var h := |group| / 2;
      var left, right := group[..h], group[h..];
      var below := Calls(cfg, oracle, rules, left, depth + 1) + Calls(cfg, oracle, rules, right, depth + 1);
      SplitTries(cfg, oracle, rules, group, depth, k);
      OwnCallIsNotBelow(cfg, oracle, rules, group, depth, left);
      OwnCallIsNotBelow(cfg, oracle, rules, group, depth, right);
      assert AskingFor(Calls(cfg, oracle, rules, group, depth), group[k]) == {own} + AskingFor(below, group[k]);
      assert own !in AskingFor(below, group[k]);
    } else {
      assert AskingFor(Calls(cfg, oracle, rules, group, depth), group[k]) == {own};
    }
  }

  lemma JoinedTries(left: Outcome, right: Outcome, k: nat)
    requires left.Finished? && right.Finished? && k < |left.results| + |right.results|
    ensures JoinHalves(left, right).Finished? && |JoinHalves(left, right).results| == |left.results| + |right.results|
    ensures JoinHalves(left, right).results[k].tries
            == 1 + if k < |left.results| then left.results[k].tries else right.results[k - |left.results|].tries
  {
  }

  lemma SplitIsJoin(cfg: Config, oracle: Oracle, rules: nat -> Context, group: seq<nat>, depth: nat)
    requires |group| > 1 && ClassifyGroup(cfg, oracle, rules, group, depth).Finished?
    requires !BatchAnswered(oracle, group, depth) && Splits(cfg, oracle.batch(group, depth), depth)
    ensures var a, b := ClassifyGroup(cfg, oracle, rules, group[..|group| / 2], depth + 1),
                        ClassifyGroup(cfg, oracle, rules, group[|group| / 2..], depth + 1);
            a.Finished? && b.Finished? && ClassifyGroup(cfg, oracle, rules, group, depth) == JoinHalves(a, b)
  {
  }

  lemma AskingForOne(a: set<Call>, b: set<Call>, i: nat)
    ensures AskingFor(b, i) == {} ==> AskingFor(a + b, i) == AskingFor(a, i)
    ensures AskingFor(a, i) == {} ==> AskingFor(a + b, i) == AskingFor(b, i)
  {
    assert AskingFor(a + b, i) == AskingFor(a, i) + AskingFor(b, i);
  }

  lemma {:induction false} SplitTries(cfg: Config, oracle: Oracle, rules: nat -> Context, group: seq<nat>, depth: nat,
                                      k: nat)
    requires ClassifyGroup(cfg, oracle, rules, group, depth).Finished? && NoRepeats(group) && |group| > 1
    requires k < |group| == |ClassifyGroup(cfg, oracle, rules, group, depth).results|
    requires !BatchAnswered(oracle, group, depth) && Splits(cfg, oracle.batch(group, depth), depth)
    ensures var h := |group| / 2;
            var a, b := Calls(cfg, oracle, rules, group[..h], depth + 1),
                        Calls(cfg, oracle, rules, group[h..], depth + 1);
            ClassifyGroup(cfg, oracle, rules, group, depth).results[k].tries == 1 + |AskingFor(a + b, group[k])|
    decreases |group|, 0
  {
    var h := |group| / 2;
    var left, right := group[..h], group[h..];
    SplitIsJoin(cfg, oracle, rules, group, depth);
    ResultForEach(cfg, oracle, rules, left, depth + 1);
    ResultForEach(cfg, oracle, rules, right, depth + 1);
    JoinedTries(ClassifyGroup(cfg, oracle, rules, left, depth + 1),
                ClassifyGroup(cfg, oracle, rules, right, depth + 1), k);
    AskingForOne(Calls(cfg, oracle, rules, left, depth + 1), Calls(cfg, oracle, rules, right, depth + 1), group[k]);
    if k < h {
      TriesAreRequests(cfg, oracle, rules, left, depth + 1, k);
      NoCallsForOthers(cfg, oracle, rules, right, depth + 1, group[k]);
    } else {
      TriesAreRequests(cfg, oracle, rules, right, depth + 1, k - h);
      NoCallsForOthers(cfg, oracle, rules, left, depth + 1, group[k]);
    }
  }

  lemma {:induction false} ResultForEach(cfg: Config, oracle: Oracle, rules: nat -> Context, group: seq<nat>,
                                         depth: nat)
    ensures var r := ClassifyGroup(cfg, oracle, rules, group, depth); r.Finished? ==> |r.results| == |group|
    decreases |group|
  {
    if |group| > 1 && !BatchAnswered(oracle, group, depth) && Splits(cfg, oracle.batch(group, depth), depth) {
      ResultForEach(cfg, oracle, rules, group[..|group| / 2], depth + 1);
      ResultForEach(cfg, oracle, rules, group[|group| / 2..], depth + 1);
    }
  }
}
