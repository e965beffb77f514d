/** What a classification says about each message, apart from how it is put together: where its result comes
    from, and what rules and fallbacks make of it. */
module ClassifyResults {
  import opened Common
  import opened Classifier
  import opened ClassifierGroups

  // ----- what the rule context does to a result -----

  /** At least the floor and at least what it was, and one of the two. */
  predicate Raised(before: real, after: real, floor: real) {
    after >= before && after >= floor && after in {before, floor}
  }

  predicate Capped(before: real, after: real, cap: real) { after <= before && after <= cap && after in {before, cap} }

  predicate Lifted(before: int, after: int, floor: int) {
    after >= before && after >= floor && after in {before, floor}
  }

  /** Mail of an important sender is an appointment exactly when the model said so or found an event, otherwise
      relevant; it is forwarded, with confidence and importance raised to at least 0.96 and 8. */
  predicate ForImportant(m: Classification, r: Classification) {
    && r.category == (if m.category == Appointment || m.event != None then Appointment else Relevant)
    && r.forward && Raised(m.confidence, r.confidence, 0.96) && Lifted(m.importance, r.importance, 8)
    && r.origin == ImportantSender(m.origin)
  }

  /** Spam that must not be spam becomes uncertain, with little confidence, and is not forwarded. */
  predicate ForGuarded(m: Classification, r: Classification) {
    && r.category == Uncertain && !r.forward && Capped(m.confidence, r.confidence, 0.69)
    && Lifted(m.importance, r.importance, 4) && r.origin == LegitimacyGuard
  }

  /** A known contact only moves the importance, up to ten. */
  predicate ForContact(m: Classification, r: Classification, boost: int) {
    && r.category == m.category && r.forward == m.forward && r.confidence == m.confidence
    && (r.importance == m.importance + boost <= 10 || r.importance == 10 < m.importance + boost)
    && r.origin == KnownContact(m.origin)
  }

  /** What the rule context makes of a result m: the event and the texts are kept in any case. */
  predicate Adjusted(m: Classification, r: Classification, ctx: Context) {
    && r.event == m.event && r.details == m.details
    && if ctx.importantSender then ForImportant(m, r)
       else if ctx.preventSpam && m.category == Spam then ForGuarded(m, r)
       else if ctx.knownContact && ctx.boost > 0 && m.category in {Relevant, Appointment}
       then ForContact(m, r, ctx.boost)
       else r == m
  }

  lemma ContextAdjusts(m: Classification, ctx: Context)
    ensures Adjusted(m, ApplyContext(m, ctx), ctx)
  {
  }

  /** A message without an answer: relevant and forwarded for an important sender, otherwise uncertain without
      any confidence and not forwarded. */
  predicate LeftToFallback(r: Classification, ctx: Context) {
    && r.event == None && r.details == ""
    && if ctx.importantSender
       then r.category == Relevant && r.confidence == 0.96 && r.importance == 8 && r.forward
            && r.origin in {ImportantFallback, ImportantSender(ImportantFallback)}
       else r.category == Uncertain && r.confidence == 0.0 && r.importance == 5 && !r.forward
            && r.origin == SafeFallback
  }

  lemma FallbackIsCautious(ctx: Context)
    requires ctx.forced.None?
    ensures LeftToFallback(Fallback(ctx), ctx) && LeftToFallback(ApplyContext(Fallback(ctx), ctx), ctx)
  {
  }

  /** Once the user has said that a message is no spam, a rule that says spam is dropped and every other rule
      stays; before that the rules are what they are. */
  lemma ClearedRules(evaluated: Context, force: bool)
    ensures var c := RuleContext(evaluated, force);
            && c.importantSender == evaluated.importantSender && c.knownContact == evaluated.knownContact
            && c.boost == evaluated.boost && c.preventSpam == (force || evaluated.preventSpam)
            && (match evaluated.forced
                case None => c.forced == None
                case Some(rule) => c.forced == if force && rule.category == Spam then None else Some(rule))
  {
  }

  // ----- where the result of a message comes from -----

  /** The decision of its rule, or what its rules make of the model's own entry for it, or the fallback after
      its request failed. */
  ghost predicate OwnResult(runner: Runner, calls: set<Call>, ctx: Context, i: nat, r: Classification) {
    match ctx.forced
    case Some(rule) => r == rule
    case None => FromModel(runner, calls, ctx, i, r) || FromFallback(runner, calls, ctx, i, r)
  }

  /** The model answered for this message in a request of this run, and the rules made this of it. */
  ghost predicate FromModel(runner: Runner, calls: set<Call>, ctx: Context, i: nat, r: Classification) {
    exists call, m :: call in calls && CallAnswers(runner.oracle, call, i, m) && Adjusted(m, r, ctx)
  }

  /** The last request of this run for this message failed, and it was left to the fallback. */
  ghost predicate FromFallback(runner: Runner, calls: set<Call>, ctx: Context, i: nat, r: Classification) {
    LeftToFallback(r, ctx) && exists call :: call in calls && CallFails(runner.cfg, runner.oracle, call, i)
  }

  lemma OwnIsFrom(runner: Runner, calls: set<Call>, ctx: Context, i: nat, t: Tried)
    requires Own(runner.cfg, runner.oracle, runner.rules, calls, i, t) && runner.rules(i) == ctx && ctx.forced.None?
    ensures OwnResult(runner, calls, ctx, i, ApplyContext(t.c, ctx))
  {
    ContextAdjusts(t.c, ctx);
    if t.fallback {
      FallbackIsCautious(ctx);
    } else {
      var call :| call in calls && CallAnswers(runner.oracle, call, i, t.c);
    }
  }
}
