/** Classifying a list of messages: rules first, then the groups that need the model, in any order of
    completion, and the results put back in the order of the input. */
module ClassifyMany {
  import opened Common
  import opened Classifier
  import opened ClassifierGroups
  import opened ClassifyResults
  import G = ModelGroups

  /** A message as far as this code looks at it: its evaluated rule context and what grouping uses. */
  datatype Message = Message(context: Context, chars: nat, heavy: bool, calendar: bool)

  function ContextOf(messages: seq<Message>, force: bool, i: nat): Context {
    if i < |messages| then RuleContext(messages[i].context, force) else NO_RULE
  }

  function RulesOf(messages: seq<Message>, force: bool): nat -> Context {
    (i: nat) => ContextOf(messages, force, i)
  }

  // ----- the messages that need the model -----

  function ItemOf(messages: seq<Message>, i: nat): G.Item
    requires i < |messages|
  {
    G.Item(i, messages[i].chars, messages[i].heavy, messages[i].calendar)
  }

  /** The first n messages without those that a rule decides. */
  function Unresolved(messages: seq<Message>, force: bool, n: nat): seq<G.Item>
    requires n <= |messages|
  {
    if n == 0 then []
    else Unresolved(messages, force, n - 1) + (if ContextOf(messages, force, n - 1).forced.Some? then []
                                               else [ItemOf(messages, n - 1)])
  }

  predicate IncreasingBelow(items: seq<G.Item>, n: nat) {
    && (forall q | 0 <= q < |items| :: items[q].index < n)
    && (forall p, q | 0 <= p < q < |items| :: items[p].index < items[q].index)
  }

  lemma {:induction false} UnresolvedInOrder(messages: seq<Message>, force: bool, n: nat)
    requires n <= |messages|
    ensures var items := Unresolved(messages, force, n);
            IncreasingBelow(items, n) && forall q | 0 <= q < |items| ::
                ContextOf(messages, force, items[q].index).forced.None?
  {
    if n > 0 {
      UnresolvedInOrder(messages, force, n - 1);
    }
  }

  predicate Listed(items: seq<G.Item>, i: nat) { exists q :: 0 <= q < |items| && items[q].index == i }

  lemma {:induction false} UnresolvedListed(messages: seq<Message>, force: bool, n: nat, i: nat)
    requires i < n <= |messages| && ContextOf(messages, force, i).forced.None?
    ensures Listed(Unresolved(messages, force, n), i)
  {
    var before, items := Unresolved(messages, force, n - 1), Unresolved(messages, force, n);
    if i < n - 1 {
      UnresolvedListed(messages, force, n - 1, i);
      var q :| 0 <= q < |before| && before[q].index == i;
      assert items[q].index == i;
    } else {
      assert items[|items| - 1].index == i;
    }
  }

  /** What the partition looks at is what is known of each message. */
  lemma {:induction false} ItemsAreTheirMessages(messages: seq<Message>, force: bool, n: nat, q: nat)
    requires n <= |messages| && q < |Unresolved(messages, force, n)|
    ensures var item := Unresolved(messages, force, n)[q];
            && item.index < n && ContextOf(messages, force, item.index).forced.None?
            && var m := messages[item.index];
               item.chars == m.chars && item.heavy == m.heavy && item.calendar == m.calendar
  {
    if q < |Unresolved(messages, force, n - 1)| { ItemsAreTheirMessages(messages, force, n - 1, q); }
  }

  // ----- putting results back -----

  function Placed(results: seq<Option<Classification>>, messages: seq<Message>, force: bool, items: seq<G.Item>,
                  tried: seq<Tried>)
    : (r: seq<Option<Classification>>)
    requires |items| == |tried| && |results| == |messages| && forall q | 0 <= q < |items| :: items[q].index < |messages|
    ensures |r| == |results|
  {
    if items == [] then results
    else
      var n := |items| - 1;
      Placed(results, messages, force, items[..n], tried[..n])
        [items[n].index := Some(ApplyContext(tried[n].c, ContextOf(messages, force, items[n].index)))]
  }

  lemma {:induction false} PlacedConcat(results: seq<Option<Classification>>, messages: seq<Message>, force: bool,
                                        a: seq<G.Item>, x: seq<Tried>, b: seq<G.Item>, y: seq<Tried>)
    requires |a| == |x| && |b| == |y| && |results| == |messages|
    requires forall q | 0 <= q < |a| :: a[q].index < |messages|
    requires forall q | 0 <= q < |b| :: b[q].index < |messages|
    ensures Placed(results, messages, force, a + b, x + y)
            == Placed(Placed(results, messages, force, a, x), messages, force, b, y)
    decreases |b|
  {
    if b == [] {
      assert a + b == a && x + y == x;
    } else {
      var n := |b| - 1;
      assert (a + b)[..|a + b| - 1] == a + b[..n] && (x + y)[..|x + y| - 1] == x + y[..n];
      PlacedConcat(results, messages, force, a, x, b[..n], y[..n]);
    }
  }

  /** The results stand at the places of these items, and nothing else has changed. */
  predicate AllPlaced(results: seq<Option<Classification>>, messages: seq<Message>, force: bool, items: seq<G.Item>,
                      tried: seq<Tried>, r: seq<Option<Classification>>)
    requires |items| == |tried| && |results| == |messages| == |r| && IncreasingBelow(items, |messages|)
  {
    && (forall q | 0 <= q < |items| ::
          r[items[q].index] == Some(ApplyContext(tried[q].c, ContextOf(messages, force, items[q].index))))
    && (forall i | 0 <= i < |results| && (forall q | 0 <= q < |items| :: items[q].index != i) :: r[i] == results[i])
  }

  lemma PlacedOneMore(results: seq<Option<Classification>>, messages: seq<Message>, force: bool, items: seq<G.Item>,
                      tried: seq<Tried>, before: seq<Option<Classification>>)
    requires |items| == |tried| > 0 && |results| == |messages| == |before| && IncreasingBelow(items, |messages|)
    requires IncreasingBelow(items[..|items| - 1], |messages|)
    requires AllPlaced(results, messages, force, items[..|items| - 1], tried[..|items| - 1], before)
    ensures var last := items[|items| - 1].index;
            AllPlaced(results, messages, force, items, tried,
                      before[last := Some(ApplyContext(tried[|items| - 1].c, ContextOf(messages, force, last)))])
  {
    var n := |items| - 1;
    assert forall q | 0 <= q < n :: items[..n][q] == items[q] && tried[..n][q] == tried[q];
    forall i | 0 <= i < |results| && (forall q | 0 <= q < |items| :: items[q].index != i)
      ensures before[i] == results[i] && i != items[n].index
    {
      assert items[n].index != i;
      forall q | 0 <= q < n ensures items[..n][q].index != i { assert items[q].index != i; }
    }
  }

  lemma {:induction false} PlacedAt(results: seq<Option<Classification>>, messages: seq<Message>, force: bool,
                                    items: seq<G.Item>, tried: seq<Tried>)
    requires |items| == |tried| && |results| == |messages| && IncreasingBelow(items, |messages|)
    ensures AllPlaced(results, messages, force, items, tried, Placed(results, messages, force, items, tried))
    decreases |items|
  {
    if items != [] {
      var n := |items| - 1;
      PlacedAt(results, messages, force, items[..n], tried[..n]);
      PlacedOneMore(results, messages, force, items, tried, Placed(results, messages, force, items[..n], tried[..n]));
    }
  }

  // ----- the groups, in any order of completion -----

  function Indices(group: seq<G.Item>): seq<nat> { seq(|group|, k requires 0 <= k < |group| => group[k].index) }

  predicate Permutation(order: seq<nat>, n: nat) {
    && |order| == n && (forall j | 0 <= j < n :: order[j] < n)
    && (forall i, j | 0 <= i < j < n :: order[i] != order[j])
    && (forall k: nat | k < n :: k in order)
  }

  ghost function OutcomeOf(runner: Runner, group: seq<G.Item>): Outcome {
    ClassifyGroup(runner.cfg, runner.oracle, runner.rules, Indices(group), 0)
  }

  function CountDone(done: seq<Option<seq<Tried>>>): nat {
    if done == [] then 0
    else
      var last := done[|done| - 1];
      CountDone(done[..|done| - 1]) + (if last.Some? then Fallbacks(last.value) else 0)
  }

  lemma {:induction false} CountOneMore(done: seq<Option<seq<Tried>>>, k: nat, results: seq<Tried>)
    requires k < |done| && done[k].None?
    ensures CountDone(done[k := Some(results)]) == CountDone(done) + Fallbacks(results)
  {
    var n := |done| - 1;
    if k < n {
      assert done[k := Some(results)][..n] == done[..n][k := Some(results)];
      CountOneMore(done[..n], k, results);
    } else {
      assert done[k := Some(results)][..n] == done[..n];
    }
  }

  lemma {:induction false} CountNothing(done: seq<Option<seq<Tried>>>)
    requires forall k | 0 <= k < |done| :: done[k].None?
    ensures CountDone(done) == 0
  {
    if done != [] { CountNothing(done[..|done| - 1]); }
  }

  /** The results of the groups that have completed. */
  ghost predicate DoneSoFar(runner: Runner, groups: seq<seq<G.Item>>, done: seq<Option<seq<Tried>>>) {
    |done| == |groups| && forall k | 0 <= k < |done| && done[k].Some? ::
        OutcomeOf(runner, groups[k]) == Finished(done[k].value)
  }

  /** The groups complete in this order; the first that runs out of budget ends the run. */
  method RunGroups(runner: Runner, groups: seq<seq<G.Item>>, order: seq<nat>)
    returns (r: Option<seq<Option<seq<Tried>>>>)
    requires Permutation(order, |groups|)
    modifies runner
    ensures r.Some? <==> forall k | 0 <= k < |groups| :: OutcomeOf(runner, groups[k]).Finished?
    ensures r.Some? ==> DoneSoFar(runner, groups, r.value) && (forall k | 0 <= k < |groups| :: r.value[k].Some?)
                        && runner.fallbackMessages == old(runner.fallbackMessages) + CountDone(r.value)
  {
    var done: seq<Option<seq<Tried>>> := seq(|groups|, _ => None);
    CountNothing(done);
    for j := 0 to |order|
      invariant DoneSoFar(runner, groups, done)
      invariant forall k: nat | k < |groups| :: done[k].Some? <==> k in order[..j]
      invariant runner.fallbackMessages == old(runner.fallbackMessages) + CountDone(done)
    {
      var k := order[j];
      assert order[..j + 1] == order[..j] + [k];
      assert done[k].None?;
      var outcome := runner.ClassifyModelGroup(Indices(groups[k]), 0);
      assert outcome == OutcomeOf(runner, groups[k]);
      if outcome.Aborted? {
        return None;
      }
      CountOneMore(done, k, outcome.results);
      done := done[k := Some(outcome.results)];
    }
    assert order[..|order|] == order;
    r := Some(done);
  }

  // ----- the whole classification -----

  /** The first loop: rule decisions are final, the other messages are listed for the model. */
  method ApplyRules(messages: seq<Message>, force: bool)
    returns (results: seq<Option<Classification>>, items: seq<G.Item>)
    ensures |results| == |messages| && items == Unresolved(messages, force, |messages|)
    ensures forall i | 0 <= i < |messages| :: results[i] == ContextOf(messages, force, i).forced
  {
    results, items := seq(|messages|, _ => None), [];
    for i := 0 to |messages|
      invariant |results| == |messages| && items == Unresolved(messages, force, i)
      invariant forall j | 0 <= j < i :: results[j] == ContextOf(messages, force, j).forced
    {
      var context := RuleContext(messages[i].context, force);
      if context.forced.Some? {
        results := results[i := context.forced];
      } else {
        results := results[i := None];
        items := items + [ItemOf(messages, i)];
      }
    }
  }

  predicate Below(items: seq<G.Item>, n: nat) { forall q | 0 <= q < |items| :: items[q].index < n }

  /** The loop over one group's results. */
  method PlaceGroup(results: seq<Option<Classification>>, messages: seq<Message>, force: bool, group: seq<G.Item>,
                    tried: seq<Tried>)
    returns (r: seq<Option<Classification>>)
    requires |group| == |tried| && |results| == |messages| && Below(group, |messages|)
    ensures r == Placed(results, messages, force, group, tried)
  {
    r := results;
    for j := 0 to |group|
      invariant |r| == |messages| && r == Placed(results, messages, force, group[..j], tried[..j])
    {
      assert group[..j + 1][..j] == group[..j] && tried[..j + 1][..j] == tried[..j];
      r := r[group[j].index := Some(ApplyContext(tried[j].c, RuleContext(messages[group[j].index].context, force)))];
    }
    assert group[..|group|] == group && tried[..|tried|] == tried;
  }

  /** All results, group after group. */
  function Flat(done: seq<Option<seq<Tried>>>): seq<Tried> {
    if done == [] then []
    else var last := done[|done| - 1]; Flat(done[..|done| - 1]) + (if last.Some? then last.value else [])
  }

  lemma {:induction false} CountIsFlat(done: seq<Option<seq<Tried>>>)
    ensures CountDone(done) == Fallbacks(Flat(done))
  {
    if done != [] {
      var n := |done| - 1;
      CountIsFlat(done[..n]);
      FallbacksConcat(Flat(done[..n]), if done[n].Some? then done[n].value else []);
    }
  }

  /** Each group has its results. */
  ghost predicate Answered(groups: seq<seq<G.Item>>, done: seq<Option<seq<Tried>>>) {
    |done| == |groups| && forall k | 0 <= k < |done| :: done[k].Some? && |done[k].value| == |groups[k]|
  }

  /** The join over the groups. */
  method PlaceGroups(results: seq<Option<Classification>>, messages: seq<Message>, force: bool,
                     groups: seq<seq<G.Item>>, done: seq<Option<seq<Tried>>>)
    returns (r: seq<Option<Classification>>)
    requires Answered(groups, done) && |results| == |messages| && Below(G.Concat(groups), |messages|)
    ensures |Flat(done)| == |G.Concat(groups)| && |r| == |messages|
    ensures r == Placed(results, messages, force, G.Concat(groups), Flat(done))
  {
    r := results;
    var items, flat: seq<Tried> := [], [];
    for k := 0 to |groups|
      invariant items == G.Concat(groups[..k]) && flat == Flat(done[..k]) && |items| == |flat|
      invariant Below(items, |messages|) && |r| == |messages| && r == Placed(results, messages, force, items, flat)
    {
      assert groups[..k + 1][..k] == groups[..k] && done[..k + 1][..k] == done[..k];
      GroupBelow(groups, k, |messages|);
      PlacedConcat(results, messages, force, items, flat, groups[k], done[k].value);
      r := PlaceGroup(r, messages, force, groups[k], done[k].value);
      items, flat := items + groups[k], flat + done[k].value;
    }
    assert groups[..|groups|] == groups && done[..|done|] == done;
  }

  lemma {:induction false} GroupBelow(groups: seq<seq<G.Item>>, k: nat, n: nat)
    requires k < |groups| && Below(G.Concat(groups), n)
    ensures Below(groups[k], n)
  {
    var m := |groups| - 1;
    var front, last := G.Concat(groups[..m]), groups[m];
    assert Below(front, n) by { forall q | 0 <= q < |front| ensures front[q].index < n
                               { assert (front + last)[q] == front[q]; } }
    if k < m {
      GroupBelow(groups[..m], k, n);
    } else {
      forall q | 0 <= q < |last| ensures last[q].index < n { assert (front + last)[|front| + q] == last[q]; }
    }
  }

  /** The groups of these messages; there is exactly one such partition. */
  ghost predicate PartitionOf(policy: G.Policy, items: seq<G.Item>, groups: seq<seq<G.Item>>) {
    G.Greedy(policy, groups) && G.Concat(groups) == items
  }

  ghost predicate NoneAborts(runner: Runner, groups: seq<seq<G.Item>>) {
    forall k | 0 <= k < |groups| :: OutcomeOf(runner, groups[k]).Finished?
  }

  /** The results of all groups in their order: no order of completion is mentioned. */
  ghost function ResultsOf(runner: Runner, groups: seq<seq<G.Item>>): seq<Tried> {
    if groups == [] then []
    else
      var outcome := OutcomeOf(runner, groups[|groups| - 1]);
      ResultsOf(runner, groups[..|groups| - 1]) + (if outcome.Finished? then outcome.results else [])
  }

  lemma {:induction false} FlatIsResults(runner: Runner, groups: seq<seq<G.Item>>, done: seq<Option<seq<Tried>>>)
    requires DoneSoFar(runner, groups, done) && forall k | 0 <= k < |groups| :: done[k].Some?
    ensures Flat(done) == ResultsOf(runner, groups)
  {
    if groups != [] {
      var n := |groups| - 1;
      assert DoneSoFar(runner, groups[..n], done[..n]);
      FlatIsResults(runner, groups[..n], done[..n]);
      assert OutcomeOf(runner, groups[n]) == Finished(done[n].value);
    }
  }

  lemma GroupSizes(runner: Runner, groups: seq<seq<G.Item>>, done: seq<Option<seq<Tried>>>)
    requires DoneSoFar(runner, groups, done) && forall k | 0 <= k < |groups| :: done[k].Some?
    ensures Answered(groups, done)
  {
    forall k | 0 <= k < |groups| ensures |done[k].value| == |groups[k]| {
      assert OutcomeOf(runner, groups[k]) == Finished(done[k].value);
      GroupIsSound(runner.cfg, runner.oracle, runner.rules, Indices(groups[k]), 0);
    }
  }

  /** What a classification returns: rule decisions as they are, every other message its own result with
      its rule context applied. */
  predicate Classified(messages: seq<Message>, force: bool, items: seq<G.Item>, flat: seq<Tried>,
                       r: seq<Classification>) {
    && |r| == |messages| && |flat| == |items| && Below(items, |messages|)
    && (forall i | 0 <= i < |messages| && ContextOf(messages, force, i).forced.Some? ::
        r[i] == ContextOf(messages, force, i).forced.value)
    && (forall q | 0 <= q < |items| ::
        r[items[q].index] == ApplyContext(flat[q].c, ContextOf(messages, force, items[q].index)))
  }

  /** Where every place is filled the final loop only unwraps. */
  method Unwrap(messages: seq<Message>, results: seq<Option<Classification>>, runner: Runner)
    returns (r: seq<Classification>)
    requires |results| == |messages| && forall i | 0 <= i < |results| :: results[i].Some?
    modifies runner
    ensures |r| == |results| && forall i | 0 <= i < |r| :: results[i] == Some(r[i])
    ensures runner.fallbackMessages == old(runner.fallbackMessages)
  {
    r := [];
    for i := 0 to |results|
      invariant |r| == i && forall j | 0 <= j < i :: results[j] == Some(r[j])
      invariant runner.fallbackMessages == old(runner.fallbackMessages)
    {
      r := r + [results[i].value];
    }
  }

  /** The places after the join. */
  predicate Joined(messages: seq<Message>, force: bool, items: seq<G.Item>, flat: seq<Tried>,
                   placed: seq<Option<Classification>>) {
    && |placed| == |messages| && |flat| == |items| && Below(items, |messages|)
    && (forall i | 0 <= i < |messages| && ContextOf(messages, force, i).forced.Some? ::
        placed[i] == ContextOf(messages, force, i).forced)
    && (forall q | 0 <= q < |items| ::
          placed[items[q].index] == Some(ApplyContext(flat[q].c, ContextOf(messages, force, items[q].index))))
  }

  lemma PlacedIsJoined(messages: seq<Message>, force: bool, items: seq<G.Item>, results: seq<Option<Classification>>,
                       flat: seq<Tried>)
    requires |results| == |messages| && forall i | 0 <= i < |messages| ::
               results[i] == ContextOf(messages, force, i).forced
    requires |flat| == |items| && IncreasingBelow(items, |messages|)
    requires forall q | 0 <= q < |items| :: ContextOf(messages, force, items[q].index).forced.None?
    ensures Joined(messages, force, items, flat, Placed(results, messages, force, items, flat))
  {
    PlacedAt(results, messages, force, items, flat);
  }

  lemma EveryPlaceFilled(messages: seq<Message>, force: bool, flat: seq<Tried>, placed: seq<Option<Classification>>,
                         i: nat)
    requires Joined(messages, force, Unresolved(messages, force, |messages|), flat, placed) && i < |messages|
    ensures placed[i].Some?
  {
    if ContextOf(messages, force, i).forced.None? {
      UnresolvedListed(messages, force, |messages|, i);
      var items := Unresolved(messages, force, |messages|);
      var q :| 0 <= q < |items| && items[q].index == i;
      assert placed[items[q].index].Some?;
    }
  }

  lemma JoinedIsClassified(messages: seq<Message>, force: bool, items: seq<G.Item>, flat: seq<Tried>,
                           placed: seq<Option<Classification>>, r: seq<Classification>)
    requires Joined(messages, force, items, flat, placed)
    requires |r| == |placed| && forall i | 0 <= i < |r| :: placed[i] == Some(r[i])
    ensures Classified(messages, force, items, flat, r)
  {
  }

  // ----- what it means for each message -----

  /** The requests for all groups. */
  ghost function AllCalls(runner: Runner, groups: seq<seq<G.Item>>): set<Call> {
    if groups == [] then {}
    else
      var n := |groups| - 1;
      AllCalls(runner, groups[..n]) + Calls(runner.cfg, runner.oracle, runner.rules, Indices(groups[n]), 0)
  }

  lemma {:induction false} ResultsAreSound(runner: Runner, groups: seq<seq<G.Item>>)
    requires NoneAborts(runner, groups)
    ensures Sound(runner.cfg, runner.oracle, runner.rules, AllCalls(runner, groups), Indices(G.Concat(groups)),
                  ResultsOf(runner, groups),
                  runner.cfg.maxDepth + 1)
  {
    if groups != [] {
      var n := |groups| - 1;
      assert NoneAborts(runner, groups[..n]) by {
        forall k | 0 <= k < n ensures OutcomeOf(runner, groups[..n][k]).Finished?
            { assert groups[..n][k] == groups[k]; }
      }
      ResultsAreSound(runner, groups[..n]);
      GroupIsSound(runner.cfg, runner.oracle, runner.rules, Indices(groups[n]), 0);
      SoundConcat(runner.cfg, runner.oracle, runner.rules, AllCalls(runner, groups[..n]),
                  Indices(G.Concat(groups[..n])),
                  ResultsOf(runner, groups[..n]), Calls(runner.cfg, runner.oracle, runner.rules, Indices(groups[n]), 0),
                  Indices(groups[n]), OutcomeOf(runner, groups[n]).results, runner.cfg.maxDepth + 1);
      assert Indices(G.Concat(groups)) == Indices(G.Concat(groups[..n])) + Indices(groups[n]);
    }
  }

  /** The message took part in at most as many group calls as the split allows. */
  ghost predicate TriedWithin(messages: seq<Message>, force: bool, runner: Runner, groups: seq<seq<G.Item>>, i: nat) {
    var items, results := Unresolved(messages, force, |messages|), ResultsOf(runner, groups);
    exists q :: 0 <= q < |items| && q < |results| && items[q].index == i
                && 1 <= results[q].tries <= runner.cfg.maxDepth + 1
  }

  /** Every message gets its own result, in its own place: the decision of its rule, or what its rules make of
      the model's own entry for it, or the fallback after its request failed, after no more group calls than
      the split allows; a message the user has cleared never ends up as spam. */
  lemma EveryMessageGetsItsOwn(messages: seq<Message>, force: bool, policy: G.Policy, runner: Runner,
                               groups: seq<seq<G.Item>>, r: seq<Classification>, i: nat)
    requires runner.rules == RulesOf(messages, force) && i < |messages|
    requires PartitionOf(policy, Unresolved(messages, force, |messages|), groups) && NoneAborts(runner, groups)
    requires Classified(messages, force, Unresolved(messages, force, |messages|), ResultsOf(runner, groups), r)
    ensures OwnResult(runner, AllCalls(runner, groups), ContextOf(messages, force, i), i, r[i])
    ensures force ==> r[i].category != Spam
    ensures ContextOf(messages, force, i).forced.None? ==> TriedWithin(messages, force, runner, groups, i)
  {
    var items, ctx := Unresolved(messages, force, |messages|), ContextOf(messages, force, i);
    if ctx.forced.None? {
      UnresolvedListed(messages, force, |messages|, i);
      var q :| 0 <= q < |items| && items[q].index == i;
      ResultsAreSound(runner, groups);
      var t := ResultsOf(runner, groups)[q];
      assert Indices(items)[q] == i;
      OwnIsFrom(runner, AllCalls(runner, groups), ctx, i, t);
      GuardedIsNeverSpam(t.c, ctx);
    }
  }

  /** A classification is given up if and only if the budget runs out at one of its requests. */
  lemma {:induction false} GivenUpIff(runner: Runner, groups: seq<seq<G.Item>>)
    ensures NoneAborts(runner, groups)
            <==> forall call | call in AllCalls(runner, groups) :: !RunsOut(runner.oracle, call)
  {
    if groups != [] {
      var n := |groups| - 1;
      GivenUpIff(runner, groups[..n]);
      AbortedIff(runner.cfg, runner.oracle, runner.rules, Indices(groups[n]), 0);
      assert NoneAborts(runner, groups) <==> NoneAborts(runner, groups[..n]) && OutcomeOf(runner, groups[n]).Finished?;
    }
  }

  ghost predicate EachIsOwn(messages: seq<Message>, force: bool, runner: Runner, calls: set<Call>,
                            r: seq<Classification>) {
    |r| == |messages| && forall i | 0 <= i < |r| :: OwnResult(runner, calls, ContextOf(messages, force, i), i, r[i])
  }

  lemma EachGetsItsOwn(messages: seq<Message>, force: bool, policy: G.Policy, runner: Runner,
                       groups: seq<seq<G.Item>>, r: seq<Classification>)
    requires runner.rules == RulesOf(messages, force)
    requires PartitionOf(policy, Unresolved(messages, force, |messages|), groups) && NoneAborts(runner, groups)
    requires Classified(messages, force, Unresolved(messages, force, |messages|), ResultsOf(runner, groups), r)
    ensures EachIsOwn(messages, force, runner, AllCalls(runner, groups), r)
  {
    forall i | 0 <= i < |r|
      ensures OwnResult(runner, AllCalls(runner, groups), ContextOf(messages, force, i), i, r[i])
    {
      EveryMessageGetsItsOwn(messages, force, policy, runner, groups, r, i);
    }
  }

  /** Classifying a list of messages.  `order` is the order in which the groups complete. */
  method ClassifyAll(messages: seq<Message>, force: bool, policy: G.Policy, runner: Runner, order: nat -> seq<nat>)
    returns (r: Option<seq<Classification>>)
    requires G.PolicyOk(policy) && runner.rules == RulesOf(messages, force) && forall n :: Permutation(order(n), n)
    modifies runner
    ensures var items := Unresolved(messages, force, |messages|);
            forall groups | PartitionOf(policy, items, groups) ::
              && (r.Some? <==> NoneAborts(runner, groups))
              && (r.None? <==> exists call :: call in AllCalls(runner, groups) && RunsOut(runner.oracle, call))
              && (r.Some? ==> Classified(messages, force, items, ResultsOf(runner, groups), r.value)
                              && runner.fallbackMessages == old(runner.fallbackMessages)
                                  + Fallbacks(ResultsOf(runner, groups))
                              && EachIsOwn(messages, force, runner, AllCalls(runner, groups), r.value))
  {
    var results, items := ApplyRules(messages, force);
    UnresolvedInOrder(messages, force, |messages|);
    var groups := G.Groups(policy, items);
    forall other | PartitionOf(policy, items, other) ensures other == groups {
      G.GreedyIsUnique(policy, other, groups);
    }
    GivenUpIff(runner, groups);
    var done := RunGroups(runner, groups, order(|groups|));
    if done.None? {
      return None;
    }
    FlatIsResults(runner, groups, done.value);
    CountIsFlat(done.value);
    GroupSizes(runner, groups, done.value);
    var placed := PlaceGroups(results, messages, force, groups, done.value);
    PlacedIsJoined(messages, force, items, results, Flat(done.value));
    forall i | 0 <= i < |placed| ensures placed[i].Some? {
      EveryPlaceFilled(messages, force, Flat(done.value), placed, i);
    }
    var final := Unwrap(messages, placed, runner);
    JoinedIsClassified(messages, force, items, Flat(done.value), placed, final);
    EachGetsItsOwn(messages, force, policy, runner, groups, final);
    r := Some(final);
  }
}
