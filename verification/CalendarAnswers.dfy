/** What an answer to an approval reply says about the records, and which records mails and commands leave. */
module CalendarAnswers {
  import opened Common
  import opened CalendarApproval

  /** The state after everything that a reply does. */
  function Handled(w: World, cfg: Config, r: Reply, now: nat, put: Put): World {
    Last(w, ReplyStates(w, cfg, r, now, put))
  }

  predicate HasStatus(w: World, token: string, s: ApprovalStatus) {
    token in w.approvals && w.approvals[token].status == s
  }

  /** The event is on record as created. */
  predicate OnRecord(w: World, e: Event) { e.key in w.events && w.events[e.key] == Record(e.fingerprint, EventCreated) }

  /** Nothing but the record under this key is different. */
  predicate OnlyRecord(w: World, w': World, key: string, e: Event, s: EventStatus) {
    w' == w.(events := w.events[key := Record(e.fingerprint, s)])
  }

  /** The answer is true, and the approval ends in the status that belongs to it. */
  predicate AnswerHolds(w: World, cfg: Config, r: Reply, now: nat, answer: Answer, w': World) {
    match answer
    case SenderRejected => (cfg.approver == "" || r.sender != cfg.approver) && w' == w
    case TokenUnknown => r.token !in w.approvals && w' == w
    case AnswerInvalid => r.decision == None && w' == w
    case AlreadyCreated => HasStatus(w, r.token, Created) && w' == w
    case AlreadyRejected => HasStatus(w, r.token, Rejected) && w' == w
    case ApprovalExpired => r.token in w.approvals && Expires(w.approvals[r.token], now)
                              && HasStatus(w', r.token, Expired)
    case ApprovalRejected => r.decision == Some(Reject) && HasStatus(w', r.token, Rejected)
    case EventInvalid => r.token in w.approvals && w.approvals[r.token].event == None
                         && HasStatus(w', r.token, CreateError)
    case PastEvent => cfg.requireFuture && r.token in w.approvals && w.approvals[r.token].event.Some?
                      && w.approvals[r.token].event.value.pastFrom <= now && HasStatus(w', r.token, Past)
    case ApprovalCreated => TimelyYes(w, cfg, r, now) && HasStatus(w', r.token, Created)
                            && OnRecord(w', w.approvals[r.token].event.value)
    case CreateFailed => TimelyYes(w, cfg, r, now) && HasStatus(w', r.token, CreateError)
                         && !OnRecord(w', w.approvals[r.token].event.value)
  }

  /** The time is over, or cannot be read. */
  predicate Expires(a: Approval, now: nat) { a.expiresAt.Some? ==> a.expiresAt.value < now }

  lemma AnswerIsTrue(w: World, cfg: Config, r: Reply, now: nat, put: Put)
    ensures AnswerHolds(w, cfg, r, now, ReplyAnswer(w, cfg, r, now, put), Handled(w, cfg, r, now, put))
  {
    if TimelyYes(w, cfg, r, now) {
      ApprovedIsCarriedOut(w, cfg, r, now, put);
      ApprovedHolds(w, cfg, r, now, put);
    }
  }

  /** The approved creation puts the event on record exactly when it is answered as created. */
  lemma ApprovedHolds(w: World, cfg: Config, r: Reply, now: nat, put: Put)
    requires TimelyYes(w, cfg, r, now)
    ensures var e := w.approvals[r.token].event.value;
            var w', answer := Last(w, ApprovedStates(w, cfg, r.token, e, now, put)),
              ApprovedAnswer(w, cfg, r.token, e, put);
            && answer in {ApprovalCreated, CreateFailed}
            && HasStatus(w', r.token, if answer == ApprovalCreated then Created else CreateError)
            && (OnRecord(w', e) <==> answer == ApprovalCreated)
            && (answer == ApprovalCreated <==> CanSucceed(w, cfg, e, put))
  {
    var e := w.approvals[r.token].event.value;
    var w1 := SetStatus(w, r.token, ApprovedCreating);
    CreationHolds(w1, cfg, e, put, Some(r.token), now);
  }

  /** The event is on record already, or the request is made and works, and no other event has its key. */
  predicate CanSucceed(w: World, cfg: Config, e: Event, put: Put) {
    && !(e.key in w.events && w.events[e.key].fingerprint != e.fingerprint)
    && (OnRecord(w, e) || (cfg.autoCreate && cfg.backend && put == Works))
  }

  lemma CreationHolds(w: World, cfg: Config, e: Event, put: Put, via: Option<string>, now: nat)
    ensures var w' := Last(w, CreateStates(w, cfg, e, put, via, now));
            && w'.approvals == w.approvals
            && (OnRecord(w', e) <==> CanSucceed(w, cfg, e, put))
            && (Successful(CreateEndOf(w, cfg, e, put)) <==> CanSucceed(w, cfg, e, put))
            && (OnRecord(w', e) && !OnRecord(w, e) ==> e.file in w'.calendar)
  {
  }

  /** What a creation leaves: nothing where a record stands in the way; a pending record where it is switched
      off; otherwise an attempt, recorded as created or as failed by what the server answers, with the event in
      the calendar whenever the request took effect and its file was free. */
  lemma CreationLeaves(w: World, cfg: Config, e: Event, put: Put, via: Option<string>, now: nat)
    ensures var w' := Last(w, CreateStates(w, cfg, e, put, via, now));
            var other := e.key in w.events && w.events[e.key].fingerprint != e.fingerprint;
            && (other || OnRecord(w, e) ==> w' == w)
            && (!other && !OnRecord(w, e) ==>
                  if !cfg.autoCreate || !cfg.backend then OnlyRecord(w, w', e.key, e, EventPending)
                  else
                    && w'.approvals == w.approvals && w'.events.Keys == w.events.Keys + {e.key}
                    && w'.events[e.key] == Record(e.fingerprint, if put == Works then EventCreated else EventError)
                    && (forall k | k in w.events && k != e.key :: w'.events[k] == w.events[k])
                    && if put == FailsBefore || e.file in w.calendar
                       then w'.calendar == w.calendar && w'.made == w.made
                       else w'.calendar == w.calendar[e.file := e] && w'.made == w.made + [Made(e, e.file, via, now)])
  {
  }

  /** A reply is answered as created if and only if it is a timely yes whose event is on record or gets there. */
  lemma SuccessIff(w: World, cfg: Config, r: Reply, now: nat, put: Put)
    ensures ReplyAnswer(w, cfg, r, now, put) == ApprovalCreated
            <==> TimelyYes(w, cfg, r, now) && CanSucceed(w, cfg, w.approvals[r.token].event.value, put)
  {
    if TimelyYes(w, cfg, r, now) {
      ApprovedIsCarriedOut(w, cfg, r, now, put);
      ApprovedHolds(w, cfg, r, now, put);
    } else {
      AnswerIsTrue(w, cfg, r, now, put);
    }
  }

  // ----- what mails and commands leave -----

  /** A mail with an event leaves nothing when the event is past or waits for approval; one that is not certain
      enough is put down beside the event's own record, a tentative one and one of an untrusted sender on it;
      and a creation is attempted only for a confirmed event in a mail that may be trusted. */
  lemma MailLeaves(w: World, cfg: Config, m: Mail, put: Put, now: nat)
    ensures var e, w' := m.event, Last(w, ProcessStates(w, cfg, m, put, now));
            var past := cfg.requireFuture && e.pastFrom <= now;
            && (past ==> w' == w)
            && (!past && !m.confident ==> OnlyRecord(w, w', LowKey(e), e, EventLowConfidence))
            && (!past && m.confident && cfg.approvalRequired ==> w' == w)
            && (!past && m.confident && !cfg.approvalRequired && !m.confirmed ==>
                  OnlyRecord(w, w', e.key, e, EventPending))
            && (!past && m.confident && !cfg.approvalRequired && m.confirmed && cfg.requireTrusted && !m.trusted ==>
                  OnlyRecord(w, w', e.key, e, EventUntrusted))
            && (!past && m.confident && !cfg.approvalRequired && m.confirmed && (cfg.requireTrusted ==> m.trusted) ==>
                  (OnRecord(w', e) <==> CanSucceed(w, cfg, e, put)))
            && (w'.made != w.made ==>
                  !past && m.confident && !cfg.approvalRequired && m.confirmed && (cfg.requireTrusted ==> m.trusted))
  {
    CreationHolds(w, cfg, m.event, put, None, now);
  }

  /** The low-confidence record of an event never stands in the place of the event's own. */
  lemma BesideTheRecord(e: Event)
    ensures LowKey(e) != e.key && RequestKey(e) != e.key && LowKey(e) != RequestKey(e)
  {
    assert |LowKey(e)| > |e.key| && |RequestKey(e)| > |e.key|;
    assert LowKey(e)[0] == 'p' && RequestKey(e)[0] == 'a';
  }

  /** Versions of one event have low-confidence records of their own as far as the first 16 characters of their
      fingerprints differ. */
  lemma OneRecordForAPrefix(a: Event, b: Event)
    requires a.key == b.key && |a.fingerprint| >= 16 && |b.fingerprint| >= 16
    ensures LowKey(a) == LowKey(b) <==> a.fingerprint[..16] == b.fingerprint[..16]
  {
    var front := "pending:" + a.key + ":";
    assert LowKey(a)[|front|..] == a.fingerprint[..16] && LowKey(b)[|front|..] == b.fingerprint[..16];
  }

  /** A command mail leaves its event on record exactly when the calendar action created it. */
  lemma CommandLeaves(w: World, cfg: Config, e: Event, bridge: Bridge, now: nat)
    ensures var w' := Last(w, CommandStates(w, cfg, e, bridge, now));
            var past := cfg.requireFuture && e.pastFrom <= now;
            && (past ==> w' == w)
            && (!past && bridge == BridgeCreates && e.href !in w.calendar ==>
                  OnRecord(w', e) && e.href in w'.calendar && w'.calendar[e.href] == e)
            && (!past && bridge == BridgeCreates && e.href in w.calendar ==> w' == w)
            && (!past && bridge == BridgeKnowsIt ==> OnlyRecord(w, w', e.key, e, EventDuplicate))
            && (!past && bridge.BridgeFails? ==>
                  && w'.events == w.events && w'.approvals == w.approvals
                  && (e.href in w'.calendar <==> e.href in w.calendar || bridge.effect))
  {
  }
}
