/** Measuring predictors against explicit corrections: the counters of one predictor, and the holdout
    that shares neither senders nor threads between training and evaluation. */
module LearningQuality {
  import opened Common

  datatype Category = Spam | Routine | Relevant

  const CATEGORIES: seq<Category> := [Spam, Routine, Relevant]

  datatype Observation = Observation(actual: Category, predicted: Option<Category>)

  /** One count per category, and one for abstentions. */
  datatype Counter = Counter(spam: nat, routine: nat, relevant: nat, abstain: nat)

  const NO_COUNTS := Counter(0, 0, 0, 0)

  function Get(c: Counter, p: Option<Category>): nat {
    match p
    case None => c.abstain
    case Some(Spam) => c.spam
    case Some(Routine) => c.routine
    case Some(Relevant) => c.relevant
  }

  function Bump(c: Counter, p: Option<Category>): Counter {
    match p
    case None => c.(abstain := c.abstain + 1)
    case Some(Spam) => c.(spam := c.spam + 1)
    case Some(Routine) => c.(routine := c.routine + 1)
    case Some(Relevant) => c.(relevant := c.relevant + 1)
  }

  // ----- the counters of one predictor -----

  /** The confusion matrix: for each actual category, what was predicted. */
  datatype Matrix = Matrix(spam: Counter, routine: Counter, relevant: Counter)

  function RowOf(m: Matrix, a: Category): Counter {
    match a
    case Spam => m.spam
    case Routine => m.routine
    case Relevant => m.relevant
  }

  function Record(m: Matrix, o: Observation): Matrix {
    match o.actual
    case Spam => m.(spam := Bump(m.spam, o.predicted))
    case Routine => m.(routine := Bump(m.routine, o.predicted))
    case Relevant => m.(relevant := Bump(m.relevant, o.predicted))
  }

  function MatrixOf(seen: seq<Observation>): Matrix {
    if seen == [] then Matrix(NO_COUNTS, NO_COUNTS, NO_COUNTS)
    else Record(MatrixOf(seen[..|seen| - 1]), seen[|seen| - 1])
  }

  /** An entry of the matrix is how often that pair was observed. */
  lemma {:induction false} MatrixCounts(seen: seq<Observation>, a: Category, p: Option<Category>)
    ensures Get(RowOf(MatrixOf(seen), a), p) == multiset(seen)[Observation(a, p)]
  {
    if seen != [] {
      var front, last := seen[..|seen| - 1], seen[|seen| - 1];
      MatrixCounts(front, a, p);
      assert seen == front + [last];
      assert multiset(seen) == multiset(front) + multiset{last};
    }
  }

  lemma MatrixAppend(seen: seq<Observation>, o: Observation)
    ensures MatrixOf(seen + [o]) == Record(MatrixOf(seen), o)
  {
    assert (seen + [o])[..|seen|] == seen;
  }

  // ----- what is counted -----

  /** The last two: another category predicted as this one, and this one predicted as another. */
  datatype Kind = Predicted | RightlyPredicted | WronglyPredicted | Abstention | RelevantMissed | SpamForwarded
                | TakenFor(c: Category) | MissedAs(c: Category)

  predicate Is(o: Observation, k: Kind) {
    match k
    case Predicted => o.predicted.Some?
    case RightlyPredicted => o.predicted == Some(o.actual)
    case WronglyPredicted => o.predicted.Some? && o.predicted.value != o.actual
    case Abstention => o.predicted.None?
    case RelevantMissed => o.actual == Relevant && (o.predicted == Some(Spam) || o.predicted == Some(Routine))
    case SpamForwarded => o.actual == Spam && o.predicted == Some(Relevant)
    case TakenFor(c) => o.actual != c && o.predicted == Some(c)
    case MissedAs(c) => o.actual == c && o.predicted.Some? && o.predicted.value != c
  }

  /** How many of the observations are of this kind. */
  function Times(seen: seq<Observation>, k: Kind): nat {
    if seen == [] then 0 else Times(seen[..|seen| - 1], k) + (if Is(seen[|seen| - 1], k) then 1 else 0)
  }

  lemma TimesAppend(seen: seq<Observation>, o: Observation, k: Kind)
    ensures Times(seen + [o], k) == Times(seen, k) + (if Is(o, k) then 1 else 0)
  {
    assert (seen + [o])[..|seen|] == seen;
  }

  lemma CountsAppend(seen: seq<Observation>, o: Observation)
    ensures var after := seen + [o];
            && Times(after, Predicted) == Times(seen, Predicted) + (if o.predicted.Some? then 1 else 0)
            && Times(after, RightlyPredicted) == Times(seen, RightlyPredicted) + (if o.predicted == Some(o.actual)
                  then 1 else 0)
            && Times(after, WronglyPredicted)
               == Times(seen, WronglyPredicted) + (if o.predicted.Some? && o.predicted.value != o.actual then 1 else 0)
            && Times(after, Abstention) == Times(seen, Abstention) + (if o.predicted.None? then 1 else 0)
            && Times(after, RelevantMissed) == Times(seen, RelevantMissed) + (if Is(o, RelevantMissed) then 1 else 0)
            && Times(after, SpamForwarded) == Times(seen, SpamForwarded) + (if Is(o, SpamForwarded) then 1 else 0)
  {
    TimesAppend(seen, o, Predicted);
    TimesAppend(seen, o, RightlyPredicted);
    TimesAppend(seen, o, WronglyPredicted);
    TimesAppend(seen, o, Abstention);
    TimesAppend(seen, o, RelevantMissed);
    TimesAppend(seen, o, SpamForwarded);
  }

  /** Every observation is counted once: as correct, wrong or abstained. */
  lemma {:induction false} EveryObservationCounts(seen: seq<Observation>)
    ensures |seen| == Times(seen, RightlyPredicted) + Times(seen, WronglyPredicted) + Times(seen, Abstention)
    ensures Times(seen, Predicted) == Times(seen, RightlyPredicted) + Times(seen, WronglyPredicted)
  {
    if seen != [] {
      EveryObservationCounts(seen[..|seen| - 1]);
    }
  }

  /** The wrong predictions are the entries off the diagonal. */
  lemma {:induction false} WrongIsOffDiagonal(seen: seq<Observation>)
    ensures var m := MatrixOf(seen);
            Times(seen, WronglyPredicted)
            == m.spam.routine + m.spam.relevant + m.routine.spam + m.routine.relevant + m.relevant.spam
                + m.relevant.routine
  {
    if seen != [] {
      WrongIsOffDiagonal(seen[..|seen| - 1]);
    }
  }

  /** The two risks are entries too: relevant mail that was predicted as something else, and spam as relevant. */
  lemma {:induction false} RisksAreEntries(seen: seq<Observation>)
    ensures Times(seen, RelevantMissed) == MatrixOf(seen).relevant.spam + MatrixOf(seen).relevant.routine
    ensures Times(seen, SpamForwarded) == MatrixOf(seen).spam.relevant
  {
    if seen != [] {
      RisksAreEntries(seen[..|seen| - 1]);
    }
  }

  /** The others that were predicted as this category, and what this category was predicted as instead. */
  function FalsePositiveCount(m: Matrix, c: Category): nat {
    (if c != Spam then Get(m.spam, Some(c)) else 0) + (if c != Routine then Get(m.routine, Some(c)) else 0)
    + (if c != Relevant then Get(m.relevant, Some(c)) else 0)
  }

  function FalseNegativeCount(m: Matrix, c: Category): nat {
    (if c != Spam then RowOf(m, c).spam else 0) + (if c != Routine then RowOf(m, c).routine else 0)
    + (if c != Relevant then RowOf(m, c).relevant else 0)
  }

  /** Both are counts of observations. */
  lemma {:induction false} FalseCountsAre(seen: seq<Observation>, c: Category)
    ensures FalsePositiveCount(MatrixOf(seen), c) == Times(seen, TakenFor(c))
    ensures FalseNegativeCount(MatrixOf(seen), c) == Times(seen, MissedAs(c))
  {
    if seen != [] {
      FalseCountsAre(seen[..|seen| - 1], c);
    }
  }

  class PredictorMetrics {
    var samples: nat
    var predictions: nat
    var correct: nat
    var wrong: nat
    var abstentions: nat
    var relevantMissed: nat
    var spamForwardRisk: nat
    var confusion: Matrix
    ghost var seen: seq<Observation>

    /** The counters are those of the observations so far. */
    ghost predicate Valid()
      reads this
    {
      && samples == |seen| && predictions == Times(seen, Predicted)
      && correct == Times(seen, RightlyPredicted) && wrong == Times(seen, WronglyPredicted)
      && abstentions == Times(seen, Abstention)
      && relevantMissed == Times(seen, RelevantMissed) && spamForwardRisk == Times(seen, SpamForwarded)
      && confusion == MatrixOf(seen)
    }

    constructor ()
      ensures Valid() && seen == []
    {
      samples, predictions, correct, wrong, abstentions, relevantMissed, spamForwardRisk := 0, 0, 0, 0, 0, 0, 0;
      confusion := Matrix(NO_COUNTS, NO_COUNTS, NO_COUNTS);
      seen := [];
    }

    method Observe(actual: Category, predicted: Option<Category>)
      requires Valid()
      modifies this
      ensures Valid() && seen == old(seen) + [Observation(actual, predicted)]
    {
      MatrixAppend(seen, Observation(actual, predicted));
      CountsAppend(seen, Observation(actual, predicted));
      seen := seen + [Observation(actual, predicted)];
      samples := samples + 1;
      confusion := Record(confusion, Observation(actual, predicted));
      if predicted.None? {
        abstentions := abstentions + 1;
      } else {
        predictions := predictions + 1;
        if predicted.value == actual {
          correct := correct + 1;
        } else {
          wrong := wrong + 1;
          if actual == Relevant && (predicted.value == Spam || predicted.value == Routine) {
            relevantMissed := relevantMissed + 1;
          }
          if actual == Spam && predicted.value == Relevant {
            spamForwardRisk := spamForwardRisk + 1;
          }
        }
      }
    }

    method FalsePositives(c: Category) returns (n: nat)
      requires Valid()
      ensures n == FalsePositiveCount(MatrixOf(seen), c) == Times(seen, TakenFor(c))
    {
      FalseCountsAre(seen, c);
      n := 0;
      ghost var m := MatrixOf(seen);
      for i := 0 to |CATEGORIES|
        invariant n == (if i > 0 && c != Spam then Get(m.spam, Some(c)) else 0)
                       + (if i > 1 && c != Routine then Get(m.routine, Some(c)) else 0)
                       + (if i > 2 && c != Relevant then Get(m.relevant, Some(c)) else 0)
      {
        if CATEGORIES[i] != c {
          n := n + Get(RowOf(confusion, CATEGORIES[i]), Some(c));
        }
      }
    }

    method FalseNegatives(c: Category) returns (n: nat)
      requires Valid()
      ensures n == FalseNegativeCount(MatrixOf(seen), c) == Times(seen, MissedAs(c))
    {
      FalseCountsAre(seen, c);
      n := 0;
      ghost var row := RowOf(MatrixOf(seen), c);
      for i := 0 to |CATEGORIES|
        invariant n == (if i > 0 && c != Spam then row.spam else 0) + (if i > 1 && c != Routine then row.routine else 0)
                       + (if i > 2 && c != Relevant then row.relevant else 0)
      {
        if CATEGORIES[i] != c {
          n := n + Get(RowOf(confusion, c), Some(CATEGORIES[i]));
        }
      }
    }

    /** The totals of the report agree with each other and with the observations. */
    method Totals() returns (falsePositives: nat, falseNegatives: nat)
      requires Valid()
      ensures falsePositives == falseNegatives == wrong
      ensures samples == correct + wrong + abstentions && predictions == correct + wrong
    {
      EveryObservationCounts(seen);
      WrongIsOffDiagonal(seen);
      falsePositives, falseNegatives := 0, wrong;
      ghost var m := MatrixOf(seen);
      for i := 0 to |CATEGORIES|
        invariant falsePositives == (if i > 0 then FalsePositiveCount(m, Spam) else 0)
                                    + (if i > 1 then FalsePositiveCount(m, Routine) else 0)
                                    + (if i > 2 then FalsePositiveCount(m, Relevant) else 0)
      {
        var n := FalsePositives(CATEGORIES[i]);
        falsePositives := falsePositives + n;
      }
    }
  }

  /** Summed over the categories, false positives and false negatives are both the wrong predictions. */
  lemma FalsePositivesAreFalseNegatives(seen: seq<Observation>)
    ensures var m := MatrixOf(seen);
            FalsePositiveCount(m, Spam) + FalsePositiveCount(m, Routine) + FalsePositiveCount(m, Relevant)
            == FalseNegativeCount(m, Spam) + FalseNegativeCount(m, Routine) + FalseNegativeCount(m, Relevant)
            == Times(seen, WronglyPredicted)
  {
    WrongIsOffDiagonal(seen);
  }

  // ----- the holdout -----

  /** A correction; sender and thread are digests and may be empty. */
  datatype Row = Row(id: int, createdAt: string, verdict: Category, sender: string, thread: string, pattern: string)

  function Senders(rows: seq<Row>): set<string> { set i | 0 <= i < |rows| :: rows[i].sender }
  function Threads(rows: seq<Row>): set<string> { set i | 0 <= i < |rows| :: rows[i].thread }

  predicate Keeps(row: Row, senders: set<string>, threads: set<string>) {
    row.sender !in senders && row.thread !in threads
  }

  function Clean(rows: seq<Row>, senders: set<string>, threads: set<string>): seq<Row> {
    if rows == [] then []
    else
      Clean(rows[..|rows| - 1], senders, threads)
      + (if Keeps(rows[|rows| - 1], senders, threads) then [rows[|rows| - 1]] else [])
  }

  lemma {:induction false} CleanMembers(rows: seq<Row>, senders: set<string>, threads: set<string>)
    ensures forall r :: r in Clean(rows, senders, threads) <==> r in rows && Keeps(r, senders, threads)
    ensures |Clean(rows, senders, threads)| <= |rows|
  {
    if rows != [] {
      CleanMembers(rows[..|rows| - 1], senders, threads);
      assert rows == rows[..|rows| - 1] + [rows[|rows| - 1]];
    }
  }

  predicate SortedBy(rows: seq<Row>, rank: Row -> int) {
    forall i, j | 0 <= i < j < |rows| :: rank(rows[i]) <= rank(rows[j])
  }

  /** Cleaning keeps the order: an ordered list stays ordered. */
  lemma {:induction false} CleanKeepsOrder(rows: seq<Row>, senders: set<string>, threads: set<string>, rank: Row -> int)
    requires SortedBy(rows, rank)
    ensures SortedBy(Clean(rows, senders, threads), rank)
  {
    if rows != [] {
      var front, last := rows[..|rows| - 1], rows[|rows| - 1];
      CleanKeepsOrder(front, senders, threads, rank);
      CleanMembers(front, senders, threads);
      var kept := Clean(front, senders, threads);
      forall i | 0 <= i < |kept| ensures rank(kept[i]) <= rank(last) {
        assert kept[i] in front;
        var k :| 0 <= k < |front| && front[k] == kept[i];
        assert rank(rows[k]) <= rank(rows[|rows| - 1]);
      }
    }
  }

  /** A row takes part in the overlap of the two sides. */
  predicate Shared(row: Row, before: seq<Row>, after: seq<Row>) {
    || (row.sender != "" && row.sender in Senders(before) && row.sender in Senders(after))
    || (row.thread != "" && row.thread in Threads(before) && row.thread in Threads(after))
  }

  /** The split at a cutoff, cleaned on both sides. */
  method Split(eligible: seq<Row>, cutoff: nat) returns (train: seq<Row>, evaluation: seq<Row>, purged: nat)
    requires cutoff <= |eligible|
    ensures forall r :: r in train <==> r in eligible[..cutoff] && !Shared(r, eligible[..cutoff], eligible[cutoff..])
    ensures forall r :: r in evaluation <==>
              r in eligible[cutoff..] && !Shared(r, eligible[..cutoff], eligible[cutoff..])
    ensures |train| + |evaluation| + purged == |eligible|
    ensures exists senders, threads ::
              train == Clean(eligible[..cutoff], senders, threads)
              && evaluation == Clean(eligible[cutoff..], senders, threads)
  {
    var before, after := eligible[..cutoff], eligible[cutoff..];
    var senders := (Senders(before) * Senders(after)) - {""};
    var threads := (Threads(before) * Threads(after)) - {""};
    train := CleanPartition(before, senders, threads);
    evaluation := CleanPartition(after, senders, threads);
    CleanMembers(before, senders, threads);
    CleanMembers(after, senders, threads);
    purged := |eligible| - |train| - |evaluation|;
  }

  method CleanPartition(rows: seq<Row>, senders: set<string>, threads: set<string>) returns (kept: seq<Row>)
    ensures kept == Clean(rows, senders, threads)
  {
    kept := [];
    for i := 0 to |rows|
      invariant kept == Clean(rows[..i], senders, threads)
    {
      assert rows[..i + 1][..i] == rows[..i];
      if Keeps(rows[i], senders, threads) {
        kept := kept + [rows[i]];
      }
    }
    assert rows[..|rows|] == rows;
  }

  /** No training row and no evaluation row share a sender or a thread, whatever the cutoff. */
  lemma NoLeak(eligible: seq<Row>, cutoff: nat, t: Row, e: Row)
    requires cutoff <= |eligible|
    requires t in eligible[..cutoff] && !Shared(t, eligible[..cutoff], eligible[cutoff..])
    requires e in eligible[cutoff..] && !Shared(e, eligible[..cutoff], eligible[cutoff..])
    ensures t.sender == e.sender ==> t.sender == ""
    ensures t.thread == e.thread ==> t.thread == ""
  {
    var before, after := eligible[..cutoff], eligible[cutoff..];
    var i :| 0 <= i < |before| && before[i] == t;
    var j :| 0 <= j < |after| && after[j] == e;
    assert before[i].sender in Senders(before) && after[j].sender in Senders(after);
    assert before[i].thread in Threads(before) && after[j].thread in Threads(after);
  }

  // ----- the predictors on the holdout -----

  function Total(c: Counter): nat { c.spam + c.routine + c.relevant }

  function Only(c: Counter): Option<Category> {
    if c.routine == 0 && c.relevant == 0 && c.spam > 0 then Some(Spam)
    else if c.spam == 0 && c.relevant == 0 && c.routine > 0 then Some(Routine)
    else if c.spam == 0 && c.routine == 0 && c.relevant > 0 then Some(Relevant)
    else None
  }

  function ConsistentPrediction(c: Counter, minimum: nat): Option<Category> {
    if Total(c) < minimum then None else Only(c)
  }

  function SafePatternPrediction(c: Counter): Option<Category> {
    var only := Only(c);
    if only.None? then None
    else if Get(c, only) >= (if only.value == Relevant then 1 else 2) then only else None
  }

  function At<K>(history: map<K, Counter>, key: K): Counter { if key in history then history[key] else NO_COUNTS }

  /** The histories hold only senders that occur in training. */
  predicate FromTraining(senders: map<string, Counter>, patterns: map<(string, string), Counter>, rows: seq<Row>) {
    && (forall s | s in senders :: s != "" && s in Senders(rows))
    && (forall k | k in patterns :: k.0 != "" && k.0 in Senders(rows))
  }

  /** The verdicts of the rows in question. */
  function Votes(rows: seq<Row>, ok: Row -> bool): Counter {
    if rows == [] then NO_COUNTS
    else
      var before, last := Votes(rows[..|rows| - 1], ok), rows[|rows| - 1];
      if ok(last) then Bump(before, Some(last.verdict)) else before
  }

  function OfSender(s: string): Row -> bool { (r: Row) => r.sender == s }

  function OfPattern(s: string, p: string): Row -> bool { (r: Row) => r.sender == s && r.pattern == p }

  /** The histories hold the verdicts on every sender, and on every pattern of a sender. */
  ghost predicate Histories(senders: map<string, Counter>, patterns: map<(string, string), Counter>, rows: seq<Row>) {
    && (forall s | s != "" :: At(senders, s) == Votes(rows, OfSender(s)))
    && (forall s, p | s != "" && p != "" :: At(patterns, (s, p)) == Votes(rows, OfPattern(s, p)))
  }

  /** The loop over the training rows. */
  method Train(train: seq<Row>) returns (senders: map<string, Counter>, patterns: map<(string, string), Counter>)
    ensures FromTraining(senders, patterns, train) && Histories(senders, patterns, train)
  {
    senders, patterns := map[], map[];
    for i := 0 to |train|
      invariant FromTraining(senders, patterns, train) && Histories(senders, patterns, train[..i])
    {
      var row := train[i];
      assert row.sender in Senders(train);
      assert train[..i + 1][..i] == train[..i];
      if row.sender != "" {
        senders := senders[row.sender := Bump(At(senders, row.sender), Some(row.verdict))];
      }
      if row.sender != "" && row.pattern != "" {
        patterns := patterns[(row.sender, row.pattern) :=
                             Bump(At(patterns, (row.sender, row.pattern)), Some(row.verdict))];
      }
    }
    assert train[..|train|] == train;
  }

  predicate NothingPredicted(seen: seq<Observation>) { forall j | 0 <= j < |seen| :: seen[j].predicted == None }

  lemma {:induction false} AllAbstained(seen: seq<Observation>)
    requires NothingPredicted(seen)
    ensures Times(seen, Abstention) == |seen| && Times(seen, Predicted) == 0
  {
    if seen != [] {
      AllAbstained(seen[..|seen| - 1]);
    }
  }

  function SenderPrediction(senders: map<string, Counter>, row: Row): Option<Category> {
    if row.sender != "" then ConsistentPrediction(At(senders, row.sender), 2) else None
  }

  function PatternPrediction(patterns: map<(string, string), Counter>, row: Row): Option<Category> {
    if row.sender != "" && row.pattern != "" then SafePatternPrediction(At(patterns, (row.sender, row.pattern)))
        else None
  }

  /** Without the row's sender in training there is no prediction. */
  lemma NothingToGoBy(senders: map<string, Counter>, patterns: map<(string, string), Counter>, train: seq<Row>,
                      row: Row)
    requires FromTraining(senders, patterns, train) && (row.sender in Senders(train) ==> row.sender == "")
    ensures SenderPrediction(senders, row) == None && PatternPrediction(patterns, row) == None
  {
  }

  ghost predicate Quiet(m: PredictorMetrics, n: nat)
    reads m
  {
    m.Valid() && |m.seen| == n && NothingPredicted(m.seen)
  }

  /** An observation without a prediction. */
  method ObserveNothing(m: PredictorMetrics, actual: Category, predicted: Option<Category>)
    requires predicted == None && Quiet(m, |m.seen|)
    modifies m
    ensures Quiet(m, |old(m.seen)| + 1)
  {
    m.Observe(actual, predicted);
  }

  lemma QuietTotals(m: PredictorMetrics, n: nat)
    requires Quiet(m, n)
    ensures m.samples == n && m.predictions == 0 && m.abstentions == n
  {
    AllAbstained(m.seen);
  }

  /** The sender and the pattern predictor, trained on one side and measured on the other.  As no sender
      of the evaluation side occurs in training, neither of them ever predicts anything: on this holdout
      their coverage is zero. */
  method Evaluate(train: seq<Row>, evaluation: seq<Row>)
    returns (bySender: PredictorMetrics, byPattern: PredictorMetrics)
    requires forall s | s in Senders(train) && s in Senders(evaluation) :: s == ""
    ensures bySender.Valid() && byPattern.Valid() && bySender.samples == byPattern.samples == |evaluation|
    ensures bySender.predictions == 0 && byPattern.predictions == 0
    ensures bySender.abstentions == byPattern.abstentions == |evaluation|
  {
    var senders, patterns := Train(train);
    bySender := new PredictorMetrics();
    byPattern := new PredictorMetrics();
    for i := 0 to |evaluation|
      invariant Quiet(bySender, i) && Quiet(byPattern, i) && fresh(bySender) && fresh(byPattern)
                  && bySender != byPattern
    {
      var row := evaluation[i];
      assert row.sender in Senders(evaluation);
      NothingToGoBy(senders, patterns, train, row);
      ObserveNothing(bySender, row.verdict, SenderPrediction(senders, row));
      ObserveNothing(byPattern, row.verdict, PatternPrediction(patterns, row));
    }
    QuietTotals(bySender, |evaluation|);
    QuietTotals(byPattern, |evaluation|);
  }

  lemma SplitSharesNoSender(eligible: seq<Row>, cutoff: nat, train: seq<Row>, evaluation: seq<Row>)
    requires cutoff <= |eligible|
    requires forall r | r in train :: r in eligible[..cutoff] && !Shared(r, eligible[..cutoff], eligible[cutoff..])
    requires forall r | r in evaluation :: r in eligible[cutoff..] && !Shared(r, eligible[..cutoff], eligible[cutoff..])
    ensures forall s | s in Senders(train) && s in Senders(evaluation) :: s == ""
    ensures forall s | s in Threads(train) && s in Threads(evaluation) :: s == ""
  {
    forall i, j | 0 <= i < |train| && 0 <= j < |evaluation|
      ensures train[i].sender == evaluation[j].sender ==> train[i].sender == ""
      ensures train[i].thread == evaluation[j].thread ==> train[i].thread == ""
    {
      NoLeak(eligible, cutoff, train[i], evaluation[j]);
    }
  }

  /** Rows sorted by time: every training row comes before every evaluation row. */
  lemma TrainedBeforeEvaluated(eligible: seq<Row>, cutoff: nat, t: Row, e: Row, rank: Row -> int)
    requires cutoff <= |eligible| && t in eligible[..cutoff] && e in eligible[cutoff..]
    requires SortedBy(eligible, rank)
    ensures rank(t) <= rank(e)
  {
    var i :| 0 <= i < cutoff && eligible[..cutoff][i] == t;
    var j :| 0 <= j < |eligible| - cutoff && eligible[cutoff..][j] == e;
    assert eligible[i] == t && eligible[cutoff + j] == e;
  }

  /** The holdout; `wanted` is the rounded-down 70 percent.  Whatever the rows are sorted by, for instance
      the time of the feedback, the evaluation comes after the training. */
  method Holdout(eligible: seq<Row>, wanted: int, ghost rank: Row -> int)
    returns (train: seq<Row>, evaluation: seq<Row>, purged: nat, bySender: PredictorMetrics,
             byPattern: PredictorMetrics)
    ensures |train| + |evaluation| + purged == |eligible|
    ensures forall s | s in Senders(train) && s in Senders(evaluation) :: s == ""
    ensures forall s | s in Threads(train) && s in Threads(evaluation) :: s == ""
    ensures bySender.Valid() && byPattern.Valid() && bySender.predictions == byPattern.predictions == 0
    ensures bySender.samples == byPattern.samples == |evaluation|
    ensures SortedBy(eligible, rank) ==> forall t, e | t in train && e in evaluation :: rank(t) <= rank(e)
  {
    if |eligible| < 2 {
      train, evaluation, purged := [], [], |eligible|;
      bySender := new PredictorMetrics();
      byPattern := new PredictorMetrics();
      return;
    }
    var cutoff := if wanted < 1 then 1 else if wanted > |eligible| - 1 then |eligible| - 1 else wanted;
    train, evaluation, purged := Split(eligible, cutoff);
    SplitSharesNoSender(eligible, cutoff, train, evaluation);
    if SortedBy(eligible, rank) {
      forall t, e | t in train && e in evaluation ensures rank(t) <= rank(e) {
        TrainedBeforeEvaluated(eligible, cutoff, t, e, rank);
      }
    }
    bySender, byPattern := Evaluate(train, evaluation);
  }
}
