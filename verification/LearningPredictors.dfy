/** When the predictors of the quality report predict anything: from older corrections that all agree. */
module LearningPredictors {
  import opened Common
  import opened LearningQuality

  predicate Votes1(rows: seq<Row>, ok: Row -> bool, v: Category) {
    exists i :: 0 <= i < |rows| && ok(rows[i]) && rows[i].verdict == v
  }

  predicate Votes2(rows: seq<Row>, ok: Row -> bool, v: Category) {
    exists i, j :: 0 <= i < j < |rows| && ok(rows[i]) && ok(rows[j]) && rows[i].verdict == v == rows[j].verdict
  }

  lemma {:induction false} VotesCount(rows: seq<Row>, ok: Row -> bool, v: Category)
    ensures Get(Votes(rows, ok), Some(v)) >= 1 <==> Votes1(rows, ok, v)
    ensures Get(Votes(rows, ok), Some(v)) >= 2 <==> Votes2(rows, ok, v)
  {
    if rows != [] {
      var front, last := rows[..|rows| - 1], rows[|rows| - 1];
      VotesCount(front, ok, v);
      MoreVotes(front, last, ok, v);
      assert front + [last] == rows;
    }
  }

  lemma MoreVotes(front: seq<Row>, last: Row, ok: Row -> bool, v: Category)
    ensures Votes1(front + [last], ok, v) <==> Votes1(front, ok, v) || (ok(last) && last.verdict == v)
    ensures Votes2(front + [last], ok, v)
            <==> Votes2(front, ok, v) || (Votes1(front, ok, v) && ok(last) && last.verdict == v)
  {
    var all := front + [last];
    assert all[|front|] == last && forall i | 0 <= i < |front| :: all[i] == front[i];
    if Votes1(front, ok, v) {
      var i :| 0 <= i < |front| && ok(front[i]) && front[i].verdict == v;
      assert ok(all[i]) && all[i].verdict == v;
    }
    if Votes2(front, ok, v) {
      var i, j :| 0 <= i < j < |front| && ok(front[i]) && ok(front[j]) && front[i].verdict == v == front[j].verdict;
      assert ok(all[i]) && ok(all[j]) && all[i].verdict == v == all[j].verdict;
    }
  }

  /** All verdicts on these rows are the same. */
  predicate Unanimous(rows: seq<Row>, ok: Row -> bool, v: Category) {
    forall i | 0 <= i < |rows| && ok(rows[i]) :: rows[i].verdict == v
  }

  lemma OnlyMeans(rows: seq<Row>, ok: Row -> bool, v: Category)
    ensures Only(Votes(rows, ok)) == Some(v) <==> Unanimous(rows, ok, v) && Votes1(rows, ok, v)
  {
    VotesCount(rows, ok, Spam);
    VotesCount(rows, ok, Routine);
    VotesCount(rows, ok, Relevant);
  }

  /** With a counter of the votes, a prediction from two of them on. */
  lemma ConsistentMeans(rows: seq<Row>, ok: Row -> bool, v: Category)
    ensures ConsistentPrediction(Votes(rows, ok), 2) == Some(v) <==> Unanimous(rows, ok, v) && Votes2(rows, ok, v)
  {
    OnlyMeans(rows, ok, v);
    VotesCount(rows, ok, v);
    if Votes2(rows, ok, v) { TwoAreOne(rows, ok, v); }
    OnlyIsTotal(Votes(rows, ok), v);
  }

  lemma OnlyIsTotal(c: Counter, v: Category)
    ensures Only(c) == Some(v) ==> Total(c) == Get(c, Some(v))
  {
  }

  /** A sender's mail is predicted from at least two earlier corrections, all with the same verdict. */
  lemma SenderPredicts(senders: map<string, Counter>, patterns: map<(string, string), Counter>, train: seq<Row>,
                       row: Row, v: Category)
    requires Histories(senders, patterns, train)
    ensures SenderPrediction(senders, row) == Some(v)
            <==> row.sender != "" && Unanimous(train, OfSender(row.sender), v) && Votes2(train, OfSender(row.sender), v)
  {
    if row.sender != "" { ConsistentMeans(train, OfSender(row.sender), v); }
  }

  lemma TwoAreOne(rows: seq<Row>, ok: Row -> bool, v: Category)
    requires Votes2(rows, ok, v)
    ensures Votes1(rows, ok, v)
  {
  }

  /** A pattern of a sender needs two corrections that agree, but one alone protects important mail. */
  lemma PatternPredicts(senders: map<string, Counter>, patterns: map<(string, string), Counter>, train: seq<Row>,
                        row: Row, v: Category)
    requires Histories(senders, patterns, train)
    ensures var ok := OfPattern(row.sender, row.pattern);
            PatternPrediction(patterns, row) == Some(v)
            <==> row.sender != "" && row.pattern != "" && Unanimous(train, ok, v)
                 && if v == Relevant then Votes1(train, ok, v) else Votes2(train, ok, v)
  {
    if row.sender != "" && row.pattern != "" {
      var ok := OfPattern(row.sender, row.pattern);
      OnlyMeans(train, ok, v);
      VotesCount(train, ok, v);
      if Votes2(train, ok, v) { TwoAreOne(train, ok, v); }
    }
  }
}
