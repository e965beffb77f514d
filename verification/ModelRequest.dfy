/** One request to the model: how its timeouts are cut to the remaining runtime budget, and how often it
    is repeated. */
module ModelRequest {
  import opened Common

  function Max(a: int, b: int): int { if a >= b then a else b }
  function Min(a: int, b: int): int { if a <= b then a else b }

  /** Conversion to an integer cuts towards zero. */
  function Truncate(x: real): int { if x >= 0.0 then x.Floor else -((-x).Floor) }

  datatype Timeouts = Timeouts(queue: int, upstream: int, total: int)

  /** The timeouts in seconds; without a deadline there is no budget.  `None` means the budget is spent. */
  method RequestTimeouts(requested: int, configuredQueue: int, configuredMargin: int, remaining: Option<real>)
    returns (r: Option<Timeouts>)
    ensures r.Some? <==> (remaining.Some? ==>
              Truncate(remaining.value - Max(5, configuredMargin) as real) >= 90 && requested >= 60)
    ensures r.Some? ==> r.value.total == r.value.queue + r.value.upstream + Max(5, configuredMargin)
                        && 1 <= r.value.queue <= Max(1, configuredQueue) && 1 <= r.value.upstream <= Max(1, requested)
    ensures r.Some? && remaining.Some? ==> r.value.upstream >= 60 && r.value.total as real <= remaining.value
    ensures r.Some? && (remaining.None? || Max(1, configuredQueue) + Max(1, requested)
                        + Max(5, configuredMargin) <= Truncate(remaining.value)) ==>
              r.value.queue == Max(1, configuredQueue) && r.value.upstream == Max(1, requested)
    ensures r.Some? && remaining.Some? ==>
              var available := Truncate(remaining.value) - Max(5, configuredMargin);
              && (r.value.queue == Max(1, configuredQueue) || r.value.queue == Max(30, available / 3))
              && (r.value.upstream == Max(1, requested) || r.value.queue + r.value.upstream == available)
              && (Max(1, configuredQueue) + Max(1, requested) > available ==> r.value.queue <= Max(30, available / 3))
  {
    var queue, upstream, margin := Max(1, configuredQueue), Max(1, requested), Max(5, configuredMargin);
    if remaining.Some? {
      var available := Truncate(remaining.value - margin as real);
      if available < 90 {
        return None;
      }
      TruncateMinus(remaining.value, margin);
      if queue + upstream > available {
        queue := Min(queue, Max(30, available / 3));
        upstream := Min(upstream, available - queue);
      }
      if upstream < 60 {
        return None;
      }
    }
    r := Some(Timeouts(queue, upstream, queue + upstream + margin));
  }

  lemma TruncateMinus(x: real, m: nat)
    requires Truncate(x - m as real) >= 1
    ensures Truncate(x - m as real) == Truncate(x) - m
    ensures Truncate(x - m as real) as real <= x - m as real
  {
  }

  // ----- repeating a request -----

  datatype Format = Schema | Json
  datatype Attempt = Attempt(format: Format, predict: nat)

  datatype Reply = Data | Cut | Unparsable | SchemaRefused | QueueTimeout | UpstreamTimeout | Unreachable | Broken

  /** How a request ends: with data, or with the failure of its last attempt. */
  datatype Ended = Answer | TruncatedOutput | NotJson | Waited | TimedOut | NotReachable | Failure

  function FailureOf(reply: Reply): Ended {
    match reply
    case Data => Answer
    case Cut => TruncatedOutput
    case Unparsable => NotJson
    case SchemaRefused => Failure
    case QueueTimeout => Waited
    case UpstreamTimeout => TimedOut
    case Unreachable => NotReachable
    case Broken => Failure
  }

  /** The attempt that may follow: a cut answer gets one retry with more tokens, an answer that does not
      fit the schema gets one in the plain JSON format. */
  function NextAttempt(a: Attempt, reply: Reply, retryPredict: nat, cutUsed: bool, jsonUsed: bool): Option<Attempt> {
    if reply == Cut && retryPredict > 0 && !cutUsed then Some(Attempt(Schema, retryPredict))
    else if (reply == Unparsable || reply == SchemaRefused) && a.format == Schema && !jsonUsed
        then Some(Attempt(Json, a.predict))
    else None
  }

  /** The attempts from one on; `reply(k)` is the reply to the k-th attempt. */
  function AttemptsFrom(a: Attempt, k: nat, reply: nat -> Reply, retryPredict: nat, cutUsed: bool, jsonUsed: bool)
    : (made: seq<Attempt>)
    ensures 1 <= |made| <= 1 + (if cutUsed || retryPredict == 0 then 0 else 1) + (if jsonUsed then 0 else 1)
    decreases (if cutUsed then 0 else 1) + (if jsonUsed then 0 else 1)
  {
    var next := NextAttempt(a, reply(k), retryPredict, cutUsed, jsonUsed);
    [a] + if next.None? then []
          else AttemptsFrom(next.value, k + 1, reply, retryPredict, cutUsed || reply(k) == Cut,
                            jsonUsed || reply(k) != Cut)
  }

  /** Every failure has its own end. */
  lemma FailuresMean(reply: Reply)
    ensures FailureOf(reply) == Answer <==> reply == Data
    ensures FailureOf(reply) == TruncatedOutput <==> reply == Cut
    ensures FailureOf(reply) == NotJson <==> reply == Unparsable
    ensures FailureOf(reply) == Waited <==> reply == QueueTimeout
    ensures FailureOf(reply) == TimedOut <==> reply == UpstreamTimeout
    ensures FailureOf(reply) == NotReachable <==> reply == Unreachable
  {
  }

  function RetryPredict(initial: nat, configured: nat): nat { if configured <= initial then 0 else configured }

  /** The request loop over the growing list of attempts. */
  method RepeatRequest(initial: nat, retry: nat, reply: nat -> Reply) returns (end: Ended, made: seq<Attempt>)
    ensures made == AttemptsFrom(Attempt(Schema, initial), 0, reply, retry, false, false)
    ensures end == FailureOf(reply(|made| - 1))
  {
    made := [Attempt(Schema, initial)];
    var cutUsed, jsonUsed, index := false, false, 0;
    ghost var all, tried := AttemptsFrom(made[0], 0, reply, retry, false, false), [];
    while index < |made|
      invariant |tried| == index && |made| == index + 1 && made == tried + [made[index]]
      invariant all == tried + AttemptsFrom(made[index], index, reply, retry, cutUsed, jsonUsed)
      decreases (if cutUsed then 0 else 1) + (if jsonUsed then 0 else 1)
    {
      var a, r := made[index], reply(index);
      var next := NextAttempt(a, r, retry, cutUsed, jsonUsed);
      Unfold(tried, a, index, reply, retry, cutUsed, jsonUsed);
      if next.None? {
        return FailureOf(r), made;
      }
      index := index + 1;
      tried := made;
      made := made + [next.value];
      cutUsed, jsonUsed := cutUsed || r == Cut, jsonUsed || r != Cut;
    }
  }

  lemma Unfold(tried: seq<Attempt>, a: Attempt, k: nat, reply: nat -> Reply, retry: nat, cutUsed: bool, jsonUsed: bool)
    ensures var next := NextAttempt(a, reply(k), retry, cutUsed, jsonUsed);
            tried + AttemptsFrom(a, k, reply, retry, cutUsed, jsonUsed)
            == (tried + [a]) + (if next.None? then []
                                else AttemptsFrom(next.value, k + 1, reply, retry, cutUsed || reply(k) == Cut,
                                                  jsonUsed || reply(k) != Cut))
  {
  }

  /** At most three attempts, at most two without a larger token limit to retry with. */
  lemma AttemptsAreBounded(predict: nat, retry: nat, reply: nat -> Reply)
    ensures var made := AttemptsFrom(Attempt(Schema, predict), 0, reply, retry, false, false);
            |made| <= if retry == 0 then 2 else 3
  {
  }

  predicate Retriable(reply: Reply) { reply == Cut || reply == Unparsable || reply == SchemaRefused }

  /** Every attempt but the last failed in a way that is retried, so an answer is never asked for twice. */
  lemma {:induction false} OnlyRetriableFailuresRepeat(a: Attempt, k: nat, reply: nat -> Reply, retry: nat,
                                                       cutUsed: bool, jsonUsed: bool)
    ensures var made := AttemptsFrom(a, k, reply, retry, cutUsed, jsonUsed);
            forall j: nat | k <= j < k + |made| - 1 :: Retriable(reply(j))
    decreases (if cutUsed then 0 else 1) + (if jsonUsed then 0 else 1)
  {
    var next := NextAttempt(a, reply(k), retry, cutUsed, jsonUsed);
    if next.Some? {
      var cut', json' := cutUsed || reply(k) == Cut, jsonUsed || reply(k) != Cut;
      OnlyRetriableFailuresRepeat(next.value, k + 1, reply, retry, cut', json');
    }
  }

  predicate Malformed(reply: Reply) { reply == Unparsable || reply == SchemaRefused }

  /** The replies to the attempts from the k-th on. */
  function Replies(reply: nat -> Reply, k: nat, n: nat): (rs: seq<Reply>)
    ensures |rs| == n
    decreases n
  {
    if n == 0 then [] else [reply(k)] + Replies(reply, k + 1, n - 1)
  }

  lemma {:induction false} ReplyAt(reply: nat -> Reply, k: nat, n: nat, j: nat)
    requires j < n
    ensures Replies(reply, k, n)[j] == reply(k + j)
    decreases j
  {
    if j > 0 { ReplyAt(reply, k + 1, n - 1, j - 1); }
  }

  /** An attempt after a cut answer asks for more tokens in the schema's format; one after an answer that does
      not fit the schema asks for plain JSON with the same number of tokens. */
  predicate Follows(a: Attempt, reply: Reply, next: Attempt, retry: nat) {
    if reply == Cut then next == Attempt(Schema, retry) && retry > 0
    else Malformed(reply) && a.format == Schema && next == Attempt(Json, a.predict)
  }

  /** How often an attempt was repeated for this kind of failure. */
  function Repeats(rs: seq<Reply>, cut: bool): nat {
    if |rs| <= 1 then 0 else (if (rs[0] == Cut) == cut then 1 else 0) + Repeats(rs[1..], cut)
  }

  predicate Retried(made: seq<Attempt>, rs: seq<Reply>, retry: nat) {
    |made| == |rs| && forall j | 0 <= j < |made| - 1 :: Follows(made[j], rs[j], made[j + 1], retry)
  }

  /** The last failure allows no further attempt: its retry was used, or there is none for it. */
  predicate NoneLeft(last: Attempt, reply: Reply, retry: nat, cuts: nat, others: nat) {
    && (reply == Cut ==> retry == 0 || cuts >= 1)
    && (Malformed(reply) ==> last.format == Json || others >= 1)
  }

  function One(b: bool): nat { if b then 1 else 0 }

  /** Which attempts are made: each kind of failure is retried once at most, and none is left out that the
      last failure allows. */
  lemma {:induction false} RetriesAre(a: Attempt, k: nat, reply: nat -> Reply, retry: nat, cutUsed: bool,
                                      jsonUsed: bool)
    ensures var made := AttemptsFrom(a, k, reply, retry, cutUsed, jsonUsed); var rs := Replies(reply, k, |made|);
            && made[0] == a && Retried(made, rs, retry)
            && Repeats(rs, true) + One(cutUsed) <= 1 && Repeats(rs, false) + One(jsonUsed) <= 1
            && NoneLeft(made[|made| - 1], rs[|rs| - 1], retry, Repeats(rs, true) + One(cutUsed),
                        Repeats(rs, false) + One(jsonUsed))
    decreases (if cutUsed then 0 else 1) + (if jsonUsed then 0 else 1)
  {
    var next := NextAttempt(a, reply(k), retry, cutUsed, jsonUsed);
    if next.Some? {
      var cut', json' := cutUsed || reply(k) == Cut, jsonUsed || reply(k) != Cut;
      var rest := AttemptsFrom(next.value, k + 1, reply, retry, cut', json');
      var rs := Replies(reply, k + 1, |rest|);
      RetriesAre(next.value, k + 1, reply, retry, cut', json');
      assert AttemptsFrom(a, k, reply, retry, cutUsed, jsonUsed) == [a] + rest;
      OneMoreRetry(a, reply(k), rest, rs, retry);
    } else {
      assert AttemptsFrom(a, k, reply, retry, cutUsed, jsonUsed) == [a] && Replies(reply, k, 1) == [reply(k)];
    }
  }

  lemma OneMoreRetry(a: Attempt, reply: Reply, rest: seq<Attempt>, rs: seq<Reply>, retry: nat)
    requires rest != [] && Retried(rest, rs, retry) && Follows(a, reply, rest[0], retry)
    ensures Retried([a] + rest, [reply] + rs, retry)
    ensures forall cut :: Repeats([reply] + rs, cut) == One((reply == Cut) == cut) + Repeats(rs, cut)
  {
    assert ([reply] + rs)[1..] == rs;
  }

  lemma {:induction false} NoCutRepeated(made: seq<Attempt>, rs: seq<Reply>)
    requires Retried(made, rs, 0)
    ensures Repeats(rs, true) == 0 && forall retry :: Retried(made, rs, retry)
  {
    if |rs| > 1 {
      assert Follows(made[0], rs[0], made[1], 0);
      forall j | 0 <= j < |made[1..]| - 1 ensures Follows(made[1..][j], rs[1..][j], made[1..][j + 1], 0) {
        assert Follows(made[j + 1], rs[j + 1], made[j + 2], 0);
      }
      NoCutRepeated(made[1..], rs[1..]);
      forall j | 0 <= j < |made| - 1 ensures rs[j] != Cut { assert Follows(made[j], rs[j], made[j + 1], 0); }
    }
  }

  /** A request with the limits as configured: a retry is made with more tokens than the first attempt had. */
  method RequestJson(predict: int, truncationRetry: Option<nat>, reply: nat -> Reply)
    returns (end: Ended, made: seq<Attempt>)
    ensures var initial := Max(64, predict);
            var retry := RetryPredict(initial, if truncationRetry.Some? then truncationRetry.value else 0);
            && made == AttemptsFrom(Attempt(Schema, initial), 0, reply, retry, false, false)
            && end == FailureOf(reply(|made| - 1))
    ensures made[0] == Attempt(Schema, Max(64, predict))
    ensures var retry := if truncationRetry.Some? then truncationRetry.value else 0;
            var rs := Replies(reply, 0, |made|);
            && Retried(made, rs, retry) && Repeats(rs, true) <= 1 && Repeats(rs, false) <= 1
            && (rs[|rs| - 1] == Cut ==> retry <= Max(64, predict) || Repeats(rs, true) == 1)
            && (Malformed(rs[|rs| - 1]) ==> made[|made| - 1].format == Json || Repeats(rs, false) == 1)
            && (Repeats(rs, true) >= 1 ==> retry > Max(64, predict))
            && (end == Answer <==> rs[|rs| - 1] == Data)
  {
    var initial: nat := Max(64, predict);
    var retry := RetryPredict(initial, if truncationRetry.Some? then truncationRetry.value else 0);
    end, made := RepeatRequest(initial, retry, reply);
    RetriesAre(Attempt(Schema, initial), 0, reply, retry, false, false);
    ReplyAt(reply, 0, |made|, |made| - 1);
    if retry == 0 { NoCutRepeated(made, Replies(reply, 0, |made|)); }
  }
}
