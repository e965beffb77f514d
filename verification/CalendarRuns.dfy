/** Whole runs of the calendar: replies to approvals, mails with events, command mails and new approvals in
    any order, with a monotone clock and a crash after any effect. */
module CalendarRuns {
  import opened Common
  import opened CalendarApproval

  // ----- runs -----

  /** A step takes place at its time, or right after the one before if that is later; `alive` is how many
      effects the process lives.  `noted` says that a request got as far as its own record. */
  datatype Step = Answered(at: nat, r: Reply, put: Put, alive: nat)
                | Processed(at: nat, m: Mail, put: Put, alive: nat)
                | Commanded(at: nat, e: Event, bridge: Bridge, alive: nat)
                | Requested(at: nat, token: string, a: Approval, noted: bool)

  datatype System = System(w: World, now: nat)

  /** The clock never goes back. */
  function Later(now: nat, at: nat): nat { if now <= at then at else now }

  function AfterReply(w: World, cfg: Config, r: Reply, now: nat, put: Put, alive: nat): World {
    After(w, ReplyStates(w, cfg, r, now, put), alive)
  }

  function AfterMail(w: World, cfg: Config, m: Mail, now: nat, put: Put, alive: nat): World {
    After(w, ProcessStates(w, cfg, m, put, now), alive)
  }

  function AfterCommand(w: World, cfg: Config, e: Event, now: nat, bridge: Bridge, alive: nat): World {
    After(w, CommandStates(w, cfg, e, bridge, now), alive)
  }

  /** Approvals are only added under fresh tokens. */
  function AfterRequest(w: World, token: string, a: Approval, noted: bool): World {
    if token in w.approvals || a.status !in {Sending, SendError, Pending} then w
    else
      var added := w.(approvals := w.approvals[token := a]);
      if noted && a.event.Some? then SetRecordAt(added, RequestKey(a.event.value), a.event.value, EventRequested)
          else added
  }

  function NextWorld(w: World, cfg: Config, step: Step, now: nat): World {
    match step
    case Answered(_, r, put, alive) => AfterReply(w, cfg, r, now, put, alive)
    case Processed(_, m, put, alive) => AfterMail(w, cfg, m, now, put, alive)
    case Commanded(_, e, bridge, alive) => AfterCommand(w, cfg, e, now, bridge, alive)
    case Requested(_, token, a, noted) => AfterRequest(w, token, a, noted)
  }

  function Exec(s: System, cfg: Config, step: Step): System {
    System(NextWorld(s.w, cfg, step, Later(s.now, step.at)), Later(s.now, step.at))
  }

  function Execute(s: System, cfg: Config, steps: seq<Step>): System
    decreases |steps|
  {
    if steps == [] then s else Execute(Exec(s, cfg, steps[0]), cfg, steps[1..])
  }

  // ----- what single steps may do -----

  /** What a step may do to the calendar: nothing, or add one new event. */
  predicate Extends(before: World, after: World, e: Event, path: Path, via: Option<string>, now: nat) {
    || (after.calendar == before.calendar && after.made == before.made)
    || (path !in before.calendar && after.calendar == before.calendar[path := e]
        && after.made == before.made + [Made(e, path, via, now)])
  }

  lemma CreateEffectsAre(w: World, cfg: Config, e: Event, put: Put, via: Option<string>, now: nat, alive: nat)
    ensures var after := After(w, CreateStates(w, cfg, e, put, via, now), alive);
            Extends(w, after, e, e.file, via, now) && after.approvals == w.approvals
  {
  }

  /** Only the status of this approval changes. */
  predicate OnlyStatus(before: World, after: World, token: string) {
    && token in before.approvals && token in after.approvals
    && after.approvals == before.approvals[token := before.approvals[token].(status := after.approvals[token].status)]
  }

  lemma ApprovedEffectsAre(w: World, cfg: Config, token: string, e: Event, now: nat, put: Put, alive: nat)
    requires token in w.approvals
    ensures var after := After(w, ApprovedStates(w, cfg, token, e, now, put), alive);
            Extends(w, after, e, e.file, Some(token), now) && (after == w || OnlyStatus(w, after, token))
  {
    var w1 := SetStatus(w, token, ApprovedCreating);
    var states := CreateStates(w1, cfg, e, put, Some(token), now);
    CreateEffectsAre(w1, cfg, e, put, Some(token), now, if alive >= 1 then alive - 1 else 0);
    CreateEffectsAre(w1, cfg, e, put, Some(token), now, |states|);
    assert Last(w1, states) == After(w1, states, |states|);
    var all := ApprovedStates(w, cfg, token, e, now, put);
    if 1 <= alive < |all| {
      assert all[alive - 1] == After(w1, states, alive - 1);
    }
  }

  predicate FinalStatus(s: ApprovalStatus) { s == Rejected || s == Created }

  /** What a reply that is no timely yes does: at most it closes an approval that was still open. */
  predicate Declined(before: World, after: World, token: string) {
    || after == before
    || (token in before.approvals && !FinalStatus(before.approvals[token].status) && OnlyStatus(before, after, token)
        && after.calendar == before.calendar && after.made == before.made && after.events == before.events)
  }

  lemma ClosingAnswers(w: World, cfg: Config, r: Reply, now: nat, put: Put)
    requires !TimelyYes(w, cfg, r, now)
    ensures var answer, states := ReplyAnswer(w, cfg, r, now, put), ReplyStates(w, cfg, r, now, put);
            || states == []
            || (r.token in w.approvals && !FinalStatus(w.approvals[r.token].status)
                && exists s :: states == [SetStatus(w, r.token, s)])
  {
  }

  lemma DeclinedEffect(w: World, cfg: Config, r: Reply, now: nat, put: Put, alive: nat)
    requires !TimelyYes(w, cfg, r, now)
    ensures Declined(w, After(w, ReplyStates(w, cfg, r, now, put), alive), r.token)
  {
    ClosingAnswers(w, cfg, r, now, put);
  }

  /** What a reply may do: a timely yes may add the approved event, others touch neither calendar nor
      records, and final approvals stay as they are. */
  predicate AnsweredEffect(before: World, after: World, cfg: Config, r: Reply, now: nat) {
    if TimelyYes(before, cfg, r, now)
    then var e := before.approvals[r.token].event.value;
         Extends(before, after, e, e.file, Some(r.token), now)
         && (after == before || OnlyStatus(before, after, r.token))
    else Declined(before, after, r.token)
  }

  lemma ReplyEffectsAre(w: World, cfg: Config, r: Reply, now: nat, put: Put, alive: nat)
    ensures AnsweredEffect(w, AfterReply(w, cfg, r, now, put, alive), cfg, r, now)
  {
    if TimelyYes(w, cfg, r, now) {
      ApprovedIsCarriedOut(w, cfg, r, now, put);
      ApprovedEffectsAre(w, cfg, r.token, w.approvals[r.token].event.value, now, put, alive);
    } else {
      DeclinedEffect(w, cfg, r, now, put, alive);
    }
  }

  /** What a mail or a command may do. */
  predicate MailEffect(before: World, after: World, e: Event, path: Path, now: nat) {
    Extends(before, after, e, path, None, now) && after.approvals == before.approvals
  }

  predicate RequestedEffect(before: World, after: World, token: string, a: Approval) {
    && after.calendar == before.calendar && after.made == before.made
    && (after.approvals == before.approvals || (token !in before.approvals
                                                && after.approvals == before.approvals[token := a]))
  }

  predicate WorldEffect(before: World, after: World, cfg: Config, step: Step, now: nat) {
    match step
    case Answered(_, r, _, _) => AnsweredEffect(before, after, cfg, r, now)
    case Processed(_, m, _, _) => MailEffect(before, after, m.event, m.event.file, now)
    case Commanded(_, e, _, _) => MailEffect(before, after, e, e.href, now)
    case Requested(_, token, a, _) => RequestedEffect(before, after, token, a)
  }

  predicate Effect(s: System, s': System, cfg: Config, step: Step) {
    s'.now == Later(s.now, step.at) && WorldEffect(s.w, s'.w, cfg, step, s'.now)
  }

  lemma MailEffectsAre(w: World, cfg: Config, m: Mail, now: nat, put: Put, alive: nat)
    ensures MailEffect(w, AfterMail(w, cfg, m, now, put, alive), m.event, m.event.file, now)
  {
    CreateEffectsAre(w, cfg, m.event, put, None, now, alive);
  }

  lemma CommandEffectsAre(w: World, cfg: Config, e: Event, now: nat, bridge: Bridge, alive: nat)
    ensures MailEffect(w, AfterCommand(w, cfg, e, now, bridge, alive), e, e.href, now)
  {
  }

  lemma WorldEffectOf(w: World, cfg: Config, step: Step, now: nat) returns (w': World)
    ensures w' == NextWorld(w, cfg, step, now) && WorldEffect(w, w', cfg, step, now)
  {
    match step {
      case Answered(_, r, put, alive) =>
        w' := AfterReply(w, cfg, r, now, put, alive);
        ReplyEffectsAre(w, cfg, r, now, put, alive);
      case Processed(_, m, put, alive) =>
        w' := AfterMail(w, cfg, m, now, put, alive);
        MailEffectsAre(w, cfg, m, now, put, alive);
      case Commanded(_, e, bridge, alive) =>
        w' := AfterCommand(w, cfg, e, now, bridge, alive);
        CommandEffectsAre(w, cfg, e, now, bridge, alive);
      case Requested(_, token, a, noted) =>
        w' := AfterRequest(w, token, a, noted);
    }
  }

  lemma EffectOf(s: System, cfg: Config, step: Step) returns (s': System)
    ensures s' == Exec(s, cfg, step) && Effect(s, s', cfg, step)
  {
    var w' := WorldEffectOf(s.w, cfg, step, Later(s.now, step.at));
    s' := System(w', Later(s.now, step.at));
  }

  /** The event that a step made, if it made one, and why it was allowed to. */
  predicate MadeRightly(s: System, s': System, cfg: Config, step: Step) {
    && s.w.made <= s'.w.made && |s'.w.made| <= |s.w.made| + 1
    && (|s'.w.made| > |s.w.made| ==>
          var made := s'.w.made[|s.w.made|];
          && made.at == s'.now && made.path !in s.w.calendar
          && made.path == (if step.Commanded? then made.event.href else made.event.file)
          && match step
             case Answered(_, r, _, _) =>
               TimelyYes(s.w, cfg, r, s'.now) && made.via == Some(r.token)
                   && made.event == s.w.approvals[r.token].event.value
             case Processed(_, m, _, _) => made.via == None && made.event == m.event
             case Commanded(_, e, _, _) => made.via == None && made.event == e
             case Requested(_, _, _, _) => false)
  }

  lemma EffectMakesRightly(s: System, s': System, cfg: Config, step: Step)
    requires Effect(s, s', cfg, step)
    ensures MadeRightly(s, s', cfg, step)
  {
  }

  /** An event is made through an approval only by the configured sender's yes before the expiry. */
  lemma CreateOnlyByTimelyYes(s: System, cfg: Config, step: Step)
    ensures MadeRightly(s, Exec(s, cfg, step), cfg, step)
  {
    var s' := EffectOf(s, cfg, step);
    EffectMakesRightly(s, s', cfg, step);
  }

  // ----- the records of events -----

  predicate RecordKept(before: World, after: World, key: string)
    requires key in before.events
  {
    && key in after.events && after.events[key].fingerprint == before.events[key].fingerprint
    && (before.events[key].status == EventCreated ==> after.events[key].status == EventCreated)
  }

  /** The keys of events themselves, as opposed to the records kept beside them. */
  predicate EventKey(key: string) { key != "" && (key[0] == 'u' || key[0] == 'f') }

  /** The record of another event state stands under this key: writing it anew loses something. */
  predicate Loses(w: World, key: string, e: Event, status: EventStatus) {
    && key in w.events && key == e.key
    && (w.events[key].fingerprint != e.fingerprint || (w.events[key].status == EventCreated && status != EventCreated))
  }

  /** The steps that write a record without looking at the one that is there, and get as far as that. */
  predicate Overwrites(w: World, cfg: Config, step: Step, now: nat, key: string) {
    match step
    case Processed(_, m, _, alive) => alive >= 1 && StoredUnchecked(cfg, m, now) && Loses(w, key, m.event, EventPending)
    case Commanded(_, e, bridge, alive) =>
      && !TooOld(cfg, e, now)
      && ((bridge.BridgeCreates? && e.href !in w.calendar && alive >= 2 && Loses(w, key, e, EventCreated))
          || (bridge.BridgeKnowsIt? && alive >= 1 && Loses(w, key, e, EventDuplicate)))
    case _ => false
  }

  lemma BesideKeys(key: string, e: Event)
    requires EventKey(key)
    ensures key != LowKey(e) && key != RequestKey(e)
  {
    assert LowKey(e)[0] == 'p' && RequestKey(e)[0] == 'a';
  }

  /** A creation looks at the record before it writes one. */
  lemma CreationKeepsRecord(w: World, cfg: Config, e: Event, put: Put, via: Option<string>, now: nat, alive: nat,
                            key: string)
    requires key in w.events
    ensures RecordKept(w, After(w, CreateStates(w, cfg, e, put, via, now), alive), key)
  {
  }

  lemma ApprovedKeepsRecord(w: World, cfg: Config, token: string, e: Event, now: nat, put: Put, alive: nat, key: string)
    requires key in w.events && token in w.approvals
    ensures RecordKept(w, After(w, ApprovedStates(w, cfg, token, e, now, put), alive), key)
  {
    var w1 := SetStatus(w, token, ApprovedCreating);
    var states := CreateStates(w1, cfg, e, put, Some(token), now);
    CreationKeepsRecord(w1, cfg, e, put, Some(token), now, if alive >= 1 then alive - 1 else 0, key);
    CreationKeepsRecord(w1, cfg, e, put, Some(token), now, |states|, key);
    assert Last(w1, states) == After(w1, states, |states|);
    var all := ApprovedStates(w, cfg, token, e, now, put);
    if 1 <= alive < |all| {
      assert all[alive - 1] == After(w1, states, alive - 1);
    }
  }

  lemma ReplyKeepsRecord(w: World, cfg: Config, r: Reply, now: nat, put: Put, alive: nat, key: string)
    requires key in w.events
    ensures RecordKept(w, AfterReply(w, cfg, r, now, put, alive), key)
  {
    if TimelyYes(w, cfg, r, now) {
      ApprovedIsCarriedOut(w, cfg, r, now, put);
      ApprovedKeepsRecord(w, cfg, r.token, w.approvals[r.token].event.value, now, put, alive, key);
    } else {
      DeclinedEffect(w, cfg, r, now, put, alive);
    }
  }

  lemma MailKeepsRecordIff(w: World, cfg: Config, m: Mail, now: nat, put: Put, alive: nat, key: string)
    requires key in w.events && EventKey(key)
    ensures RecordKept(w, AfterMail(w, cfg, m, now, put, alive), key)
            <==> !(alive >= 1 && StoredUnchecked(cfg, m, now) && Loses(w, key, m.event, EventPending))
  {
    BesideKeys(key, m.event);
    CreationKeepsRecord(w, cfg, m.event, put, None, now, alive, key);
  }

  lemma CommandKeepsRecordIff(w: World, cfg: Config, e: Event, now: nat, bridge: Bridge, alive: nat, key: string)
    requires key in w.events
    ensures RecordKept(w, AfterCommand(w, cfg, e, now, bridge, alive), key)
            <==> !Overwrites(w, cfg, Commanded(now, e, bridge, alive), now, key)
  {
  }

  /** One step keeps the record of an event if and only if it is not a tentative or untrusted mail, or a
      command, that writes its own record over one with another fingerprint or of a created event. */
  lemma RecordIsKeptIff(s: System, cfg: Config, step: Step, key: string)
    requires key in s.w.events && EventKey(key)
    ensures RecordKept(s.w, Exec(s, cfg, step).w, key) <==> !Overwrites(s.w, cfg, step, Later(s.now, step.at), key)
  {
    var now := Later(s.now, step.at);
    match step {
      case Answered(_, r, put, alive) => ReplyKeepsRecord(s.w, cfg, r, now, put, alive, key);
      case Processed(_, m, put, alive) => MailKeepsRecordIff(s.w, cfg, m, now, put, alive, key);
      case Commanded(_, e, bridge, alive) => CommandKeepsRecordIff(s.w, cfg, e, now, bridge, alive, key);
      case Requested(_, _, a, _) => if a.event.Some? { BesideKeys(key, a.event.value); }
    }
  }

  /** The state after the first k steps. */
  function StateAt(s: System, cfg: Config, steps: seq<Step>, k: nat): System
    requires k <= |steps|
  {
    Execute(s, cfg, steps[..k])
  }

  lemma {:induction false} StateAtNext(s: System, cfg: Config, steps: seq<Step>, k: nat)
    requires k < |steps|
    ensures StateAt(s, cfg, steps, k + 1) == Exec(StateAt(s, cfg, steps, k), cfg, steps[k])
    decreases k
  {
    if k == 0 {
      var next := Exec(s, cfg, steps[0]);
      assert steps[..1] == [steps[0]] && [steps[0]][1..] == [] && steps[..0] == [];
      assert Execute(s, cfg, [steps[0]]) == Execute(next, cfg, []) == next;
    } else {
      var next, tail := Exec(s, cfg, steps[0]), steps[1..];
      assert steps[..k + 1][0] == steps[0] && steps[..k + 1][1..] == tail[..k];
      assert steps[..k][0] == steps[0] && steps[..k][1..] == tail[..k - 1];
      StateAtNext(next, cfg, tail, k - 1);
    }
  }

  predicate OverwritesAt(s: System, cfg: Config, steps: seq<Step>, k: nat, key: string)
    requires k < |steps|
  {
    var before := StateAt(s, cfg, steps, k);
    Overwrites(before.w, cfg, steps[k], Later(before.now, steps[k].at), key)
  }

  predicate KeptAt(s: System, cfg: Config, steps: seq<Step>, k: nat, key: string)
    requires k < |steps|
  {
    var before, after := StateAt(s, cfg, steps, k), StateAt(s, cfg, steps, k + 1);
    key in before.w.events && RecordKept(before.w, after.w, key)
  }

  lemma RecordsStay(s: System, cfg: Config, step: Step, key: string)
    requires key in s.w.events
    ensures key in Exec(s, cfg, step).w.events
  {
    var now := Later(s.now, step.at);
    match step {
      case Answered(_, r, put, alive) => ReplyKeepsRecord(s.w, cfg, r, now, put, alive, key);
      case Processed(_, m, put, alive) => CreationKeepsRecord(s.w, cfg, m.event, put, None, now, alive, key);
      case Commanded(_, e, bridge, alive) =>
      case Requested(_, _, a, _) =>
    }
  }

  lemma {:induction false} RecordsStayUntil(s: System, cfg: Config, steps: seq<Step>, k: nat, key: string)
    requires key in s.w.events && k <= |steps|
    ensures key in StateAt(s, cfg, steps, k).w.events
    decreases k
  {
    if k == 0 {
      assert steps[..0] == [];
    } else {
      RecordsStayUntil(s, cfg, steps, k - 1, key);
      StateAtNext(s, cfg, steps, k - 1);
      RecordsStay(StateAt(s, cfg, steps, k - 1), cfg, steps[k - 1], key);
    }
  }

  /** Over a whole run the record of an event is kept by every step if and only if no step overwrites it. */
  lemma RecordIsKeptThroughoutIff(s: System, cfg: Config, steps: seq<Step>, key: string)
    requires key in s.w.events && EventKey(key)
    ensures (forall k: nat | k < |steps| :: KeptAt(s, cfg, steps, k, key))
            <==> (forall k: nat | k < |steps| :: !OverwritesAt(s, cfg, steps, k, key))
  {
    forall k: nat | k < |steps| ensures KeptAt(s, cfg, steps, k, key) <==> !OverwritesAt(s, cfg, steps, k, key) {
      RecordsStayUntil(s, cfg, steps, k, key);
      StateAtNext(s, cfg, steps, k);
      RecordIsKeptIff(StateAt(s, cfg, steps, k), cfg, steps[k], key);
    }
  }

  lemma RecordKeptTwice(a: World, b: World, c: World, key: string)
    requires key in a.events && RecordKept(a, b, key) && RecordKept(b, c, key)
    ensures RecordKept(a, c, key)
  {
  }

  /** Then the record at the end is still that of the beginning. */
  lemma {:induction false} RecordsAreKeptForever(s: System, cfg: Config, steps: seq<Step>, k: nat, key: string)
    requires key in s.w.events && EventKey(key) && k <= |steps|
    requires forall j: nat | j < k :: !OverwritesAt(s, cfg, steps, j, key)
    ensures RecordKept(s.w, StateAt(s, cfg, steps, k).w, key)
    decreases k
  {
    if k == 0 {
      assert steps[..0] == [];
    } else {
      RecordsAreKeptForever(s, cfg, steps, k - 1, key);
      StateAtNext(s, cfg, steps, k - 1);
      var before := StateAt(s, cfg, steps, k - 1);
      assert !OverwritesAt(s, cfg, steps, k - 1, key);
      RecordIsKeptIff(before, cfg, steps[k - 1], key);
      RecordKeptTwice(s.w, before.w, Exec(before, cfg, steps[k - 1]).w, key);
    }
  }

  /** A tentative mail with the UID of a created event replaces its record: fingerprint and status are lost. */
  lemma TentativeMailReplacesRecord(cfg: Config, e: Event, was: string)
    requires !cfg.requireFuture && !cfg.approvalRequired && e.fingerprint != was
    ensures var start := System(World(map[], map[e.key := Record(was, EventCreated)], map[], []), 0);
            Exec(start, cfg, Processed(1, Mail(e, true, false, true), Works, 1)).w.events == map[e.key :=
                  Record(e.fingerprint, EventPending)]
  {
  }

  // ----- every event had its yes -----

  /** The k-th step of the run is the timely yes through which this event was made. */
  ghost predicate YesAt(s: System, cfg: Config, steps: seq<Step>, k: nat, made: Made)
    requires k < |steps|
  {
    var before, step := Execute(s, cfg, steps[..k]), steps[k];
    && step.Answered? && TimelyYes(before.w, cfg, step.r, made.at) && made.at == Later(before.now, step.at)
    && made.via == Some(step.r.token) && before.w.approvals[step.r.token].event == Some(made.event)
    && made.path == made.event.file && made.path !in before.w.calendar
  }

  lemma YesAtLater(s: System, next: System, cfg: Config, steps: seq<Step>, k: nat, made: Made)
    requires steps != [] && next == Exec(s, cfg, steps[0]) && k < |steps[1..]| && YesAt(next, cfg, steps[1..], k, made)
    ensures YesAt(s, cfg, steps, k + 1, made)
  {
    assert steps[..k + 1][0] == steps[0] && steps[..k + 1][1..] == steps[1..][..k];
    assert Execute(s, cfg, steps[..k + 1]) == Execute(next, cfg, steps[1..][..k]);
    assert steps[1..][k] == steps[k + 1];
  }

  lemma {:induction false} MadeOnlyGrows(s: System, cfg: Config, steps: seq<Step>)
    ensures s.w.made <= Execute(s, cfg, steps).w.made
    decreases |steps|
  {
    if steps != [] {
      var next := EffectOf(s, cfg, steps[0]);
      EffectMakesRightly(s, next, cfg, steps[0]);
      MadeOnlyGrows(next, cfg, steps[1..]);
    }
  }

  lemma YesAtOnce(s: System, next: System, cfg: Config, steps: seq<Step>, made: Made)
    requires steps != [] && MadeRightly(s, next, cfg, steps[0]) && next.now == Later(s.now, steps[0].at)
    requires |s.w.made| < |next.w.made| && made == next.w.made[|s.w.made|] && made.via.Some?
    ensures YesAt(s, cfg, steps, 0, made)
  {
    assert steps[..0] == [];
  }

  /** Over every run of replies, crashes and direct creations: each event made through an approval goes
      back to one step that was the configured sender's yes, in time, to an approval of just this event. */
  lemma {:induction false} EveryEventHadItsYes(s: System, cfg: Config, steps: seq<Step>, i: nat)
    requires |s.w.made| <= i < |Execute(s, cfg, steps).w.made| && Execute(s, cfg, steps).w.made[i].via.Some?
    ensures exists k: nat :: k < |steps| && YesAt(s, cfg, steps, k, Execute(s, cfg, steps).w.made[i])
    decreases |steps|
  {
    if steps != [] {
      var next := EffectOf(s, cfg, steps[0]);
      EffectMakesRightly(s, next, cfg, steps[0]);
      MadeOnlyGrows(next, cfg, steps[1..]);
      var made := Execute(next, cfg, steps[1..]).w.made[i];
      if i < |next.w.made| {
        YesAtOnce(s, next, cfg, steps, made);
      } else {
        EveryEventHadItsYes(next, cfg, steps[1..], i);
        var k: nat :| k < |steps[1..]| && YesAt(next, cfg, steps[1..], k, made);
        YesAtLater(s, next, cfg, steps, k, made);
      }
    }
  }

  // ----- closed approvals -----

  /** The approval was rejected, was carried out, or is past its expiry. */
  predicate Closed(s: System, token: string) {
    token in s.w.approvals && (FinalStatus(s.w.approvals[token].status) || TooLate(s.w.approvals[token], s.now))
  }

  predicate NothingMadeVia(before: World, after: World, token: string) {
    before.made <= after.made && forall i | |before.made| <= i < |after.made| :: after.made[i].via != Some(token)
  }

  lemma EffectKeepsClosed(s: System, s': System, cfg: Config, step: Step, token: string)
    requires Effect(s, s', cfg, step) && Closed(s, token)
    ensures Closed(s', token) && NothingMadeVia(s.w, s'.w, token)
  {
    EffectMakesRightly(s, s', cfg, step);
  }

  /** Once an approval is rejected, carried out or past its expiry, no continuation ever makes an event
      through it. */
  lemma {:induction false} ClosedNeverCreates(s: System, cfg: Config, steps: seq<Step>, token: string)
    requires Closed(s, token)
    ensures NothingMadeVia(s.w, Execute(s, cfg, steps).w, token)
    decreases |steps|
  {
    if steps != [] {
      var next := EffectOf(s, cfg, steps[0]);
      EffectKeepsClosed(s, next, cfg, steps[0], token);
      ClosedNeverCreates(next, cfg, steps[1..], token);
      NothingMadeTwice(s.w, next.w, Execute(next, cfg, steps[1..]).w, token);
    }
  }

  lemma NothingMadeTwice(a: World, b: World, c: World, token: string)
    requires NothingMadeVia(a, b, token) && NothingMadeVia(b, c, token)
    ensures NothingMadeVia(a, c, token)
  {
    forall i | |a.made| <= i < |c.made| ensures c.made[i].via != Some(token) {
      if i < |b.made| { assert c.made[i] == b.made[i]; }
    }
  }

  // ----- one event per key -----

  /** How the key, the UID and the file names of a normalised event belong together. */
  predicate Normalised(e: Event) {
    && e.file == Named(SafeFilename(e.uid)) && e.href == ActionName(e.uid, e.text)
    && (|| e.key == "uid:" + e.uid
        || (e.key == "fp:" + e.fingerprint && |e.fingerprint| >= 32
            && e.uid == e.fingerprint[..32] + "@local-mail-agent"))
  }

  lemma KeyFixesUid(a: Event, b: Event)
    requires Normalised(a) && Normalised(b) && a.key == b.key
    ensures a.uid == b.uid && a.file == b.file
  {
    var key := a.key;
    KeyParts(a);
    KeyParts(b);
  }

  lemma KeyParts(e: Event)
    requires Normalised(e)
    ensures e.key != "" && (e.key[0] == 'u' || e.key[0] == 'f')
    ensures e.key[0] == 'u' ==> |e.key| >= 4 && e.uid == e.key[4..]
    ensures e.key[0] == 'f' ==> |e.key| >= 35 && e.uid == e.key[3..][..32] + "@local-mail-agent"
  {
    if e.key == "uid:" + e.uid {
      assert e.key[0] == 'u' && e.key[4..] == e.uid;
    } else {
      assert e.key[0] == 'f' && e.key[3..] == e.fingerprint;
    }
  }

  /** No file name was used twice, and each is one of the event's two. */
  predicate OnePerPath(w: World) {
    && (forall i | 0 <= i < |w.made| :: w.made[i].path in w.calendar)
    && (forall i, j | 0 <= i < j < |w.made| :: w.made[i].path != w.made[j].path)
  }

  lemma EffectKeepsOnePerPath(s: System, s': System, cfg: Config, step: Step)
    requires Effect(s, s', cfg, step) && OnePerPath(s.w)
    ensures OnePerPath(s'.w)
  {
    match step {
      case Answered(_, r, _, _) =>
        if TimelyYes(s.w, cfg, r, s'.now) {
          var e := s.w.approvals[r.token].event.value;
          ExtendsOnePerPath(s.w, s'.w, e, e.file, Some(r.token), s'.now);
        }
      case Processed(_, m, _, _) => ExtendsOnePerPath(s.w, s'.w, m.event, m.event.file, None, s'.now);
      case Commanded(_, e, _, _) => ExtendsOnePerPath(s.w, s'.w, e, e.href, None, s'.now);
      case Requested(_, _, _, _) =>
    }
  }

  lemma ExtendsOnePerPath(before: World, after: World, e: Event, path: Path, via: Option<string>, now: nat)
    requires Extends(before, after, e, path, via, now) && OnePerPath(before)
    ensures OnePerPath(after)
  {
  }

  lemma {:induction false} StaysOnePerPath(s: System, cfg: Config, steps: seq<Step>)
    requires OnePerPath(s.w)
    ensures OnePerPath(Execute(s, cfg, steps).w)
    decreases |steps|
  {
    if steps != [] {
      var next := EffectOf(s, cfg, steps[0]);
      EffectKeepsOnePerPath(s, next, cfg, steps[0]);
      StaysOnePerPath(next, cfg, steps[1..]);
    }
  }

  /** Over every run, with crashes and failing requests, the agent's own requests make at most one event for
      an event key; a second one can only come from a command mail, under another name. */
  lemma OneEventPerKey(s: System, cfg: Config, steps: seq<Step>, i: nat, j: nat)
    requires s.w.made == []
    requires i < j < |Execute(s, cfg, steps).w.made|
    requires Normalised(Execute(s, cfg, steps).w.made[i].event) && Normalised(Execute(s, cfg, steps).w.made[j].event)
    ensures var a, b := Execute(s, cfg, steps).w.made[i], Execute(s, cfg, steps).w.made[j];
            a.path != b.path && (a.event.key == b.event.key ==> a.path != a.event.file || b.path != b.event.file)
  {
    StaysOnePerPath(s, cfg, steps);
    var made := Execute(s, cfg, steps).w.made;
    if made[i].event.key == made[j].event.key {
      KeyFixesUid(made[i].event, made[j].event);
    }
  }

  predicate OwnFiles(w: World) { forall i | 0 <= i < |w.made| :: w.made[i].path == w.made[i].event.file }

  lemma {:induction false} StaysOwnFiles(s: System, cfg: Config, steps: seq<Step>)
    requires OwnFiles(s.w) && forall k | 0 <= k < |steps| :: !steps[k].Commanded?
    ensures OwnFiles(Execute(s, cfg, steps).w)
    decreases |steps|
  {
    if steps != [] {
      var next := EffectOf(s, cfg, steps[0]);
      EffectMakesRightly(s, next, cfg, steps[0]);
      assert forall i | 0 <= i < |s.w.made| :: next.w.made[i] == s.w.made[i];
      StaysOwnFiles(next, cfg, steps[1..]);
    }
  }

  /** So over every run without command mails a key has one event. */
  lemma OneEventWithoutCommands(s: System, cfg: Config, steps: seq<Step>, i: nat, j: nat)
    requires s.w.made == [] && forall k | 0 <= k < |steps| :: !steps[k].Commanded?
    requires i < j < |Execute(s, cfg, steps).w.made|
    requires Normalised(Execute(s, cfg, steps).w.made[i].event) && Normalised(Execute(s, cfg, steps).w.made[j].event)
    ensures Execute(s, cfg, steps).w.made[i].event.key != Execute(s, cfg, steps).w.made[j].event.key
  {
    StaysOwnFiles(s, cfg, steps);
    OneEventPerKey(s, cfg, steps, i, j);
  }

  /** Such a second event: after a yes a command mail makes the same event under its other name. */
  lemma CommandMakesAnother(e: Event, token: string, cfg: Config)
    requires cfg.approver != "" && !cfg.requireFuture && cfg.autoCreate && cfg.backend && e.file != e.href
    ensures var yes := Answered(1, Reply(token, cfg.approver, Some(Approve)), Works, 4);
            Execute(System(Asked(token, e, Pending), 0), cfg, [yes, Commanded(2, e, BridgeCreates, 2)]).w.made
            == [Made(e, e.file, Some(token), 1), Made(e, e.href, None, 2)]
  {
    var yes, command := Answered(1, Reply(token, cfg.approver, Some(Approve)), Works, 4),
        Commanded(2, e, BridgeCreates, 2);
    var start := System(Asked(token, e, Pending), 0);
    ExecuteTwo(start, cfg, yes, command);
    ReplyMakesIff(start.w, cfg, yes.r, 1, Works, 4);
    var w := Exec(start, cfg, yes).w;
    assert w.calendar == map[e.file := e] && w.made == [Made(e, e.file, Some(token), 1)] by {
      ReplyEffectsAre(start.w, cfg, yes.r, 1, Works, 4);
    }
  }

  // ----- an approval marked as created whose event is not there -----

  predicate There(w: World, e: Event) { e.file in w.calendar && w.calendar[e.file].uid == e.uid }

  /** A timely yes handled to its end by a server that answers leaves the approval as created without its
      event if and only if the record already says created and the event is not there, or the file of the
      event holds one with another UID. */
  lemma CreatedWithoutEventIff(w: World, cfg: Config, r: Reply, now: nat)
    requires TimelyYes(w, cfg, r, now)
    ensures var e, after := w.approvals[r.token].event.value, AfterReply(w, cfg, r, now, Works, 4);
            && r.token in after.approvals
            && (after.approvals[r.token].status == Created && !There(after, e) <==>
                  && !Differs(w, e) && !There(w, e)
                  && (AlreadyThere(w, e) || (cfg.autoCreate && cfg.backend && e.file in w.calendar)))
  {
    ApprovedIsCarriedOut(w, cfg, r, now, Works);
    CarriedOutToTheEnd(w, cfg, r.token, w.approvals[r.token].event.value, now);
  }

  lemma CarriedOutToTheEnd(w: World, cfg: Config, token: string, e: Event, now: nat)
    requires token in w.approvals
    ensures var states, w1 := ApprovedStates(w, cfg, token, e, now, Works), SetStatus(w, token, ApprovedCreating);
            var end := Last(w1, CreateStates(w1, cfg, e, Works, Some(token), now));
            && |states| <= 4 && token in end.approvals
            && After(w, states, 4)
               == SetStatus(end, token, if Successful(CreateEndOf(w1, cfg, e, Works)) then Created else CreateError)
            && end.calendar == if !Differs(w, e) && !AlreadyThere(w, e) && cfg.autoCreate && cfg.backend
                                  && e.file !in w.calendar then w.calendar[e.file := e] else w.calendar
  {
  }

  /** Two UIDs with one file name: an event "a-b" in the calendar, and a yes to "a@b".  The approval ends as
      created, and nothing was made. */
  lemma FileNameIsTaken(other: Event, e: Event, token: string, cfg: Config)
    requires cfg.approver != "" && !cfg.requireFuture && cfg.autoCreate && cfg.backend
    requires Normalised(other) && Normalised(e) && other.uid == "a-b" && e.uid == "a@b"
    ensures var start := World(map[token := Approval(Some(e), Some(100), Pending)], map[], map[other.file := other],
                               []);
            var after := AfterReply(start, cfg, Reply(token, cfg.approver, Some(Approve)), 1, Works, 4);
            && token in after.approvals && after.approvals[token].status == Created
            && after.made == [] && after.calendar == map[other.file := other]
  {
    SameFileName();
    var start := World(map[token := Approval(Some(e), Some(100), Pending)], map[], map[other.file := other], []);
    var r := Reply(token, cfg.approver, Some(Approve));
    ApprovedIsCarriedOut(start, cfg, r, 1, Works);
    CarriedOutToTheEnd(start, cfg, token, e, 1);
    ReplyMakesIff(start, cfg, r, 1, Works, 4);
  }

  lemma SameFileName()
    ensures SafeFilename("a-b") == SafeFilename("a@b")
  {
    var ok := (c: char) => AlphaNumeric(c) || c in "._-";
    assert Collapse("b", ok) == "b" by { assert "b"[1..] == ""; }
    assert Collapse("-b", ok) == "-b" by { assert "-b"[1..] == "b"; }
    assert Collapse("@b", ok) == "-b" by { assert "@b"[1..] == "b" && Skip("b", ok) == "b"; }
    assert Collapse("a-b", ok) == "a-b" by { assert "a-b"[1..] == "-b"; }
    assert Collapse("a@b", ok) == "a-b" by { assert "a@b"[1..] == "@b"; }
  }

  // ----- what an interruption can leave -----

  /** Every event made through an approval is marked there. */
  predicate MadeMeansCreated(w: World) {
    forall i | 0 <= i < |w.made| && w.made[i].via.Some? ::
      w.made[i].via.value in w.approvals && w.approvals[w.made[i].via.value].status == Created
  }

  /** The reply brings an event into being: a timely yes, nothing in the way of the creation, a request
      that takes effect, and a process that lives to make it. */
  predicate Makes(w: World, cfg: Config, r: Reply, now: nat, put: Put, alive: nat) {
    && TimelyYes(w, cfg, r, now) && alive >= 2 && put != FailsBefore && cfg.autoCreate && cfg.backend
    && var e := w.approvals[r.token].event.value;
    && !Differs(w, e) && !AlreadyThere(w, e) && e.file !in w.calendar
  }

  /** It does, but does not get to mark it: the process dies in between, or the request seems to fail. */
  predicate Strands(w: World, cfg: Config, step: Step, now: nat) {
    step.Answered? && Makes(w, cfg, step.r, now, step.put, step.alive) && !(step.alive >= 4 && step.put == Works)
  }

  lemma ApprovedMakesIff(w: World, cfg: Config, token: string, e: Event, now: nat, put: Put, alive: nat)
    requires token in w.approvals && w.approvals[token].status != Created
    ensures var after := After(w, ApprovedStates(w, cfg, token, e, now, put), alive);
            var makes := alive >= 2 && put != FailsBefore && cfg.autoCreate && cfg.backend
                         && !Differs(w, e) && !AlreadyThere(w, e) && e.file !in w.calendar;
            && after.made == (if makes then w.made + [Made(e, e.file, Some(token), now)] else w.made)
            && token in after.approvals
            && (makes ==> (after.approvals[token].status == Created <==> alive >= 4 && put == Works))
  {
    var w1 := SetStatus(w, token, ApprovedCreating);
    if !Differs(w, e) && !AlreadyThere(w, e) && cfg.autoCreate && cfg.backend {
      var served := Serve(w1, e, e.file, put, Some(token), now);
      var recorded := SetRecord(served, e, if put == Works then EventCreated else EventError);
      assert CreateStates(w1, cfg, e, put, Some(token), now) == [served, recorded];
      var s := if put == Works then Created else CreateError;
      assert ApprovedStates(w, cfg, token, e, now, put) == [w1, served, recorded, SetStatus(recorded, token, s)];
    }
  }

  function MadeBy(e: Event, token: string, now: nat): Made { Made(e, e.file, Some(token), now) }

  lemma ReplyMakesIff(w: World, cfg: Config, r: Reply, now: nat, put: Put, alive: nat)
    ensures var after, makes := AfterReply(w, cfg, r, now, put, alive), Makes(w, cfg, r, now, put, alive);
            && (if makes then after.made == w.made + [MadeBy(w.approvals[r.token].event.value, r.token, now)]
                else after.made == w.made)
            && (makes ==> r.token in after.approvals
                          && (after.approvals[r.token].status == Created <==> alive >= 4 && put == Works))
  {
    if TimelyYes(w, cfg, r, now) {
      ApprovedIsCarriedOut(w, cfg, r, now, put);
      ApprovedMakesIff(w, cfg, r.token, w.approvals[r.token].event.value, now, put, alive);
    } else {
      DeclinedEffect(w, cfg, r, now, put, alive);
    }
  }

  /** A reply handled to its end marks the approval when it made the event. */
  predicate Marks(before: World, after: World, r: Reply) {
    after.made != before.made ==> r.token in after.approvals && after.approvals[r.token].status == Created
  }

  lemma EffectKeepsMarks(s: System, s': System, cfg: Config, step: Step)
    requires Effect(s, s', cfg, step) && MadeMeansCreated(s.w) && (step.Answered? ==> Marks(s.w, s'.w, step.r))
    ensures MadeMeansCreated(s'.w)
  {
    EffectMakesRightly(s, s', cfg, step);
    forall i | 0 <= i < |s'.w.made| && s'.w.made[i].via.Some?
      ensures s'.w.made[i].via.value in s'.w.approvals && s'.w.approvals[s'.w.made[i].via.value].status == Created
    {
      if i < |s.w.made| {
        assert s'.w.made[i] == s.w.made[i];
      }
    }
  }

  /** A step leaves every event made through an approval marked there if and only if it does not strand one. */
  lemma MarkedIff(s: System, cfg: Config, step: Step)
    requires MadeMeansCreated(s.w)
    ensures MadeMeansCreated(Exec(s, cfg, step).w) <==> !Strands(s.w, cfg, step, Later(s.now, step.at))
  {
    var s' := EffectOf(s, cfg, step);
    if step.Answered? {
      ReplyMakesIff(s.w, cfg, step.r, Later(s.now, step.at), step.put, step.alive);
    }
    if Strands(s.w, cfg, step, Later(s.now, step.at)) {
      assert s'.w.made[|s.w.made|].via == Some(step.r.token);
    } else {
      EffectKeepsMarks(s, s', cfg, step);
    }
  }

  predicate StrandsAt(s: System, cfg: Config, steps: seq<Step>, k: nat)
    requires k < |steps|
  {
    var before := StateAt(s, cfg, steps, k);
    Strands(before.w, cfg, steps[k], Later(before.now, steps[k].at))
  }

  lemma {:induction false} MarkedUntil(s: System, cfg: Config, steps: seq<Step>, k: nat)
    requires MadeMeansCreated(s.w) && k <= |steps| && forall j: nat | j < k :: !StrandsAt(s, cfg, steps, j)
    ensures MadeMeansCreated(StateAt(s, cfg, steps, k).w)
    decreases k
  {
    if k == 0 {
      assert steps[..0] == [];
    } else {
      MarkedUntil(s, cfg, steps, k - 1);
      StateAtNext(s, cfg, steps, k - 1);
      assert !StrandsAt(s, cfg, steps, k - 1);
      MarkedIff(StateAt(s, cfg, steps, k - 1), cfg, steps[k - 1]);
    }
  }

  /** Over a whole run every state has all its events marked if and only if no step strands one. */
  lemma MarkedThroughoutIff(s: System, cfg: Config, steps: seq<Step>)
    requires MadeMeansCreated(s.w)
    ensures (forall k: nat | k <= |steps| :: MadeMeansCreated(StateAt(s, cfg, steps, k).w))
            <==> (forall k: nat | k < |steps| :: !StrandsAt(s, cfg, steps, k))
  {
    if forall k: nat | k < |steps| :: !StrandsAt(s, cfg, steps, k) {
      forall k: nat | k <= |steps| ensures MadeMeansCreated(StateAt(s, cfg, steps, k).w) {
        MarkedUntil(s, cfg, steps, k);
      }
    }
    if forall k: nat | k <= |steps| :: MadeMeansCreated(StateAt(s, cfg, steps, k).w) {
      forall k: nat | k < |steps| ensures !StrandsAt(s, cfg, steps, k) {
        assert MadeMeansCreated(StateAt(s, cfg, steps, k).w) && MadeMeansCreated(StateAt(s, cfg, steps, k + 1).w);
        StateAtNext(s, cfg, steps, k);
        MarkedIff(StateAt(s, cfg, steps, k), cfg, steps[k]);
      }
    }
  }

  /** A reply that is handled to its end, by a server that does not fail after taking effect. */
  predicate Uninterrupted(step: Step) { step.Answered? ==> step.alive >= 4 && step.put != FailsAfter }

  /** As long as every reply is handled to its end, an approval through which an event was made is marked
      as created; in particular no rejected or expired approval has an event. */
  lemma {:induction false} UninterruptedIsConsistent(s: System, cfg: Config, steps: seq<Step>)
    requires MadeMeansCreated(s.w) && forall k | 0 <= k < |steps| :: Uninterrupted(steps[k])
    ensures MadeMeansCreated(Execute(s, cfg, steps).w)
    decreases |steps|
  {
    if steps != [] {
      MarkedIff(s, cfg, steps[0]);
      UninterruptedIsConsistent(Exec(s, cfg, steps[0]), cfg, steps[1..]);
    }
  }

  lemma ExecuteTwo(s: System, cfg: Config, a: Step, b: Step)
    ensures Execute(s, cfg, [a, b]) == Exec(Exec(s, cfg, a), cfg, b)
  {
    var next := Exec(s, cfg, a);
    assert [a, b][1..] == [b];
    assert Execute(next, cfg, [b]) == Exec(next, cfg, b) by { assert [b][1..] == []; }
  }

  /** One open approval and nothing else. */
  function Asked(token: string, e: Event, status: ApprovalStatus): World {
    World(map[token := Approval(Some(e), Some(100), status)], map[], map[], [])
  }

  /** The event is in the calendar, and this is what the local tables know of it. */
  function Stranded(token: string, e: Event, status: ApprovalStatus, events: map<string, Record>): World {
    World(map[token := Approval(Some(e), Some(100), status)], events, map[e.file := e],
          [Made(e, e.file, Some(token), 1)])
  }

  lemma NoRejects(token: string, e: Event, status: ApprovalStatus, events: map<string, Record>, cfg: Config, no: Step)
    requires status in {ApprovedCreating, CreateError} && cfg.approver != ""
    requires no == Answered(2, Reply(token, cfg.approver, Some(Reject)), Works, 4)
    ensures Exec(System(Stranded(token, e, status, events), 1), cfg,
                 no) == System(Stranded(token, e, Rejected, events), 2)
  {
    var mid := Stranded(token, e, status, events);
    assert ReplyStates(mid, cfg, no.r, 2, Works) == [SetStatus(mid, token, Rejected)];
    assert SetStatus(mid, token, Rejected) == Stranded(token, e, Rejected, events);
  }

  /** The process dies between the server's answer and the record of it, and the next reply says no.  The
      approval ends up rejected although its event is in the calendar. */
  lemma RejectedAlthoughCreated(e: Event, token: string, cfg: Config)
    requires cfg.approver != "" && !cfg.requireFuture && cfg.autoCreate && cfg.backend
    ensures var yes := Answered(1, Reply(token, cfg.approver, Some(Approve)), Works, 2);
            var no := Answered(2, Reply(token, cfg.approver, Some(Reject)), Works, 4);
            Execute(System(Asked(token, e, Pending), 0), cfg, [yes, no]).w == Stranded(token, e, Rejected, map[])
  {
    var start := System(Asked(token, e, Pending), 0);
    var yes := Answered(1, Reply(token, cfg.approver, Some(Approve)), Works, 2);
    var no := Answered(2, Reply(token, cfg.approver, Some(Reject)), Works, 4);
    assert Exec(start, cfg, yes) == System(Stranded(token, e, ApprovedCreating, map[]), 1) by {
      assert ApprovedStates(start.w, cfg, token, e, 1, Works)[1] == Stranded(token, e, ApprovedCreating, map[]);
    }
    NoRejects(token, e, ApprovedCreating, map[], cfg, no);
    ExecuteTwo(start, cfg, yes, no);
  }

  /** No crash is needed: a request that takes effect but times out leaves an error, and then a no rejects. */
  lemma RejectedAfterTimeout(e: Event, token: string, cfg: Config)
    requires cfg.approver != "" && !cfg.requireFuture && cfg.autoCreate && cfg.backend
    ensures var yes := Answered(1, Reply(token, cfg.approver, Some(Approve)), FailsAfter, 4);
            var no := Answered(2, Reply(token, cfg.approver, Some(Reject)), Works, 4);
            Execute(System(Asked(token, e, Pending), 0), cfg, [yes, no]).w
            == Stranded(token, e, Rejected, map[e.key := Record(e.fingerprint, EventError)])
  {
    var start := System(Asked(token, e, Pending), 0);
    var yes := Answered(1, Reply(token, cfg.approver, Some(Approve)), FailsAfter, 4);
    var no := Answered(2, Reply(token, cfg.approver, Some(Reject)), Works, 4);
    var events := map[e.key := Record(e.fingerprint, EventError)];
    TimeoutLeavesError(start.w, cfg, token, e);
    NoRejects(token, e, CreateError, events, cfg, no);
    ExecuteTwo(start, cfg, yes, no);
  }

  lemma TimeoutLeavesError(w: World, cfg: Config, token: string, e: Event)
    requires w == Asked(token, e, Pending) && cfg.approver != "" && !cfg.requireFuture && cfg.autoCreate && cfg.backend
    ensures AfterReply(w, cfg, Reply(token, cfg.approver, Some(Approve)), 1, FailsAfter, 4)
            == Stranded(token, e, CreateError, map[e.key := Record(e.fingerprint, EventError)])
  {
    var r := Reply(token, cfg.approver, Some(Approve));
    ApprovedIsCarriedOut(w, cfg, r, 1, FailsAfter);
    var w1 := SetStatus(w, token, ApprovedCreating);
    var served := Serve(w1, e, e.file, FailsAfter, Some(token), 1);
    var recorded := SetRecord(served, e, EventError);
    assert CreateStates(w1, cfg, e, FailsAfter, Some(token), 1) == [served, recorded];
    assert SetStatus(recorded, token, CreateError) == Stranded(token, e, CreateError,
          map[e.key := Record(e.fingerprint, EventError)]);
  }
}
