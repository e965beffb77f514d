/** Calendar approvals by mail: a reply with yes or no, the create-only calendar server, and the local
    records of approvals and events.  Every database write and every request to the server is a point at
    which the process may die. */
module CalendarApproval {
  import opened Common

  // ----- the reply -----

  datatype Decision = Approve | Reject

  /** Case folding as far as the four words go: besides the capital letters only the long s folds to one
      of their letters. */
  function LowerChar(c: char): char {
    if 'A' <= c <= 'Z' then (c as int + 32) as char else if c == '\U{17f}' then 's' else c
  }

  function Lower(s: string): string { seq(|s|, i requires 0 <= i < |s| => LowerChar(s[i])) }

  predicate Skipped(line: string) { Strip(line) == "" || Strip(line)[0] == '>' }

  function Word(line: string): Option<Decision> {
    var word := Lower(Strip(line));
    if word in {"ja", "yes"} then Some(Approve) else if word in {"nein", "no"} then Some(Reject) else None
  }

  /** The decision is in the first line that is neither blank nor quoted. */
  method ReplyDecision(lines: seq<string>) returns (d: Option<Decision>)
    ensures (forall i | 0 <= i < |lines| :: Skipped(lines[i])) ==> d == None
    ensures forall i | 0 <= i < |lines| && !Skipped(lines[i]) && (forall j | 0 <= j < i :: Skipped(lines[j])) ::
              d == Word(lines[i])
  {
    for i := 0 to |lines|
      invariant forall j | 0 <= j < i :: Skipped(lines[j])
    {
      if !Skipped(lines[i]) {
        return Word(lines[i]);
      }
    }
    d := None;
  }

  // ----- the records -----

  /** A normalised event; it counts as past from `pastFrom` on.  `file` and `href` are the names under which
      the agent's own request and the assistant's calendar action put it. */
  datatype Event = Event(key: string, fingerprint: string, uid: string, file: Path, href: Path, pastFrom: nat,
                         text: string)

  /** A name in the calendar: one made from the UID, or a digest of the text. */
  datatype Path = Named(name: string) | Hashed(text: string)

  predicate AlphaNumeric(c: char) { 'A' <= c <= 'Z' || 'a' <= c <= 'z' || '0' <= c <= '9' }

  /** The text from the first character on that may stay. */
  function Skip(s: string, ok: char -> bool): (r: string)
    ensures |r| <= |s|
  {
    if s != "" && !ok(s[0]) then Skip(s[1..], ok) else s
  }

  /** Every run of characters that may not stay becomes one hyphen. */
  function Collapse(s: string, ok: char -> bool): string
    decreases |s|
  {
    if s == "" then "" else if ok(s[0]) then [s[0]] + Collapse(s[1..], ok) else "-" + Collapse(Skip(s[1..], ok), ok)
  }

  function DropRight(s: string, out: string): string {
    if s != "" && s[|s| - 1] in out then DropRight(s[..|s| - 1], out) else s
  }

  function DropLeft(s: string, out: string): string { if s != "" && s[0] in out then DropLeft(s[1..], out) else s }

  /** The file name of the agent's own request. */
  function SafeFilename(uid: string): string {
    var name := DropRight(DropLeft(Collapse(uid, c => AlphaNumeric(c) || c in "._-"), ".-"), ".-");
    if name == "" then "file" else if |name| <= 180 then name else name[..180]
  }

  /** The name that the assistant's calendar action gives. */
  function ActionName(uid: string, text: string): Path {
    var name := DropRight(DropLeft(Collapse(uid, c => AlphaNumeric(c) || c in "_.@-"), "-"), "-");
    if name == "" then Hashed(text) else Named(name)
  }

  datatype ApprovalStatus =
    | Sending | SendError | Pending | ApprovedCreating | Created | Rejected | Expired | Past | CreateError

  /** `event` is absent when the stored event cannot be read back, `expiresAt` when the stored time cannot. */
  datatype Approval = Approval(event: Option<Event>, expiresAt: Option<nat>, status: ApprovalStatus)

  datatype EventStatus = EventCreated | EventPending | EventError | EventUntrusted | EventLowConfidence |
      EventDuplicate | EventRequested

  datatype Record = Record(fingerprint: string, status: EventStatus)

  /** An event that came into being on the server, under which name, through which approval, and when. */
  datatype Made = Made(event: Event, path: Path, via: Option<string>, at: nat)

  /** The local tables, the calendar by file name, and everything that was ever made there. */
  datatype World = World(approvals: map<string, Approval>, events: map<string, Record>, calendar: map<Path, Event>,
                         made: seq<Made>)

  datatype Config = Config(
    approver: string, requireFuture: bool, autoCreate: bool, backend: bool, approvalRequired: bool,
        requireTrusted: bool)

  /** A reply to an approval mail, with its normalised sender. */
  datatype Reply = Reply(token: string, sender: string, decision: Option<Decision>)

  /** What a request to the server does: it may also fail before or after taking effect. */
  datatype Put = Works | FailsBefore | FailsAfter

  // ----- creating an event -----

  datatype CreateEnd = Done | Duplicate | Review | Failed

  function SetStatus(w: World, token: string, s: ApprovalStatus): World {
    if token in w.approvals then w.(approvals := w.approvals[token := w.approvals[token].(status := s)]) else w
  }

  function SetRecord(w: World, e: Event, s: EventStatus): World {
    w.(events := w.events[e.key := Record(e.fingerprint, s)])
  }

  /** The server only ever creates: a file that exists is left as it is. */
  function Serve(w: World, e: Event, path: Path, put: Put, via: Option<string>, now: nat): World {
    if put == FailsBefore || path in w.calendar then w
    else w.(calendar := w.calendar[path := e], made := w.made + [Made(e, path, via, now)])
  }

  /** The record of this event, if there is one, stands in the way of a creation. */
  predicate Differs(w: World, e: Event) { e.key in w.events && w.events[e.key].fingerprint != e.fingerprint }

  predicate AlreadyThere(w: World, e: Event) { e.key in w.events && w.events[e.key].status == EventCreated }

  /** The states after each effect of a creation. */
  function CreateStates(w: World, cfg: Config, e: Event, put: Put, via: Option<string>, now: nat): seq<World> {
    if Differs(w, e) || AlreadyThere(w, e) then []
    else if !cfg.autoCreate || !cfg.backend then [SetRecord(w, e, EventPending)]
    else
      var served := Serve(w, e, e.file, put, via, now);
      [served, SetRecord(served, e, if put == Works then EventCreated else EventError)]
  }

  /** How a creation ends. */
  function CreateEndOf(w: World, cfg: Config, e: Event, put: Put): CreateEnd {
    if Differs(w, e) then Review
    else if AlreadyThere(w, e) then Duplicate
    else if !cfg.autoCreate || !cfg.backend then Review
    else if put != Works then Failed
    else if e.file in w.calendar then Duplicate else Done
  }

  // ----- mails with an event -----

  /** An event found in a mail: whether mail and event pass the confidence threshold, whether the event is
      confirmed, and whether the sender is trusted. */
  datatype Mail = Mail(event: Event, confident: bool, confirmed: bool, trusted: bool)

  predicate TooOld(cfg: Config, e: Event, now: nat) { cfg.requireFuture && e.pastFrom <= now }

  /** Keys of records that are kept beside the events themselves. */
  function LowKey(e: Event): string { "pending:" + e.key + ":" + Prefix(e.fingerprint) }

  function RequestKey(e: Event): string { "approval:" + e.key + ":" + Prefix(e.fingerprint) }

  function Prefix(fingerprint: string): string { if |fingerprint| <= 16 then fingerprint else fingerprint[..16] }

  function SetRecordAt(w: World, key: string, e: Event, s: EventStatus): World {
    w.(events := w.events[key := Record(e.fingerprint, s)])
  }

  /** A tentative event, or one of an untrusted sender, is recorded under its own key whatever is there. */
  predicate StoredUnchecked(cfg: Config, m: Mail, now: nat) {
    && !TooOld(cfg, m.event, now) && m.confident && !cfg.approvalRequired
    && (!m.confirmed || (cfg.requireTrusted && !m.trusted))
  }

  /** The states after each effect of processing a mail; approvals are requested elsewhere. */
  function ProcessStates(w: World, cfg: Config, m: Mail, put: Put, now: nat): seq<World> {
    if TooOld(cfg, m.event, now) then []
    else if !m.confident then [SetRecordAt(w, LowKey(m.event), m.event, EventLowConfidence)]
    else if cfg.approvalRequired then []
    else if !m.confirmed then [SetRecord(w, m.event, EventPending)]
    else if cfg.requireTrusted && !m.trusted then [SetRecord(w, m.event, EventUntrusted)]
    else CreateStates(w, cfg, m.event, put, None, now)
  }

  /** How the assistant's own calendar action ends for an event from an owner's command mail. */
  datatype Bridge = BridgeCreates | BridgeKnowsIt | BridgeFails(effect: bool)

  /** The states after each effect of a command mail: the record is written whatever is there; a file that
      exists is an error. */
  function CommandStates(w: World, cfg: Config, e: Event, bridge: Bridge, now: nat): seq<World> {
    if TooOld(cfg, e, now) then []
    else
      match bridge
      case BridgeCreates =>
        if e.href in w.calendar then []
        else
          var served := Serve(w, e, e.href, Works, None, now);
          [served, SetRecord(served, e, EventCreated)]
      case BridgeKnowsIt => [SetRecord(w, e, EventDuplicate)]
      case BridgeFails(effect) => [Serve(w, e, e.href, if effect then FailsAfter else FailsBefore, None, now)]
  }

  // ----- handling a reply -----

  datatype Answer = SenderRejected | TokenUnknown | AnswerInvalid | AlreadyCreated | AlreadyRejected | ApprovalExpired
                  | ApprovalRejected | EventInvalid | PastEvent | ApprovalCreated | CreateFailed

  predicate TooLate(a: Approval, now: nat) { a.expiresAt.None? || now > a.expiresAt.value }

  function Last(w: World, states: seq<World>): World { if states == [] then w else states[|states| - 1] }

  predicate Successful(end: CreateEnd) { end == Done || end == Duplicate }

  /** The states after each effect of an approved creation: the approval is marked before and after. */
  function ApprovedStates(w: World, cfg: Config, token: string, e: Event, now: nat, put: Put): seq<World> {
    var w1 := SetStatus(w, token, ApprovedCreating);
    var states := CreateStates(w1, cfg, e, put, Some(token), now);
    var s := if Successful(CreateEndOf(w1, cfg, e, put)) then Created else CreateError;
    [w1] + states + [SetStatus(Last(w1, states), token, s)]
  }

  function ApprovedAnswer(w: World, cfg: Config, token: string, e: Event, put: Put): Answer {
    if Successful(CreateEndOf(SetStatus(w, token, ApprovedCreating), cfg, e, put)) then ApprovalCreated
        else CreateFailed
  }

  /** The answer to a reply. */
  function ReplyAnswer(w: World, cfg: Config, r: Reply, now: nat, put: Put): Answer {
    if cfg.approver == "" || r.sender != cfg.approver then SenderRejected
    else if r.token !in w.approvals then TokenUnknown
    else if r.decision.None? then AnswerInvalid
    else
      var a := w.approvals[r.token];
      if a.status == Created then AlreadyCreated
      else if a.status == Rejected then AlreadyRejected
      else if TooLate(a, now) then ApprovalExpired
      else if r.decision.value == Reject then ApprovalRejected
      else if a.event.None? then EventInvalid
      else if cfg.requireFuture && a.event.value.pastFrom <= now then PastEvent
      else ApprovedAnswer(w, cfg, r.token, a.event.value, put)
  }

  /** The states after each effect of a reply. */
  function ReplyStates(w: World, cfg: Config, r: Reply, now: nat, put: Put): seq<World> {
    match ReplyAnswer(w, cfg, r, now, put)
    case ApprovalExpired => [SetStatus(w, r.token, Expired)]
    case ApprovalRejected => [SetStatus(w, r.token, Rejected)]
    case EventInvalid => [SetStatus(w, r.token, CreateError)]
    case PastEvent => [SetStatus(w, r.token, Past)]
    case ApprovalCreated => CarriedOut(w, cfg, r, now, put)
    case CreateFailed => CarriedOut(w, cfg, r, now, put)
    case _ => []
  }

  function CarriedOut(w: World, cfg: Config, r: Reply, now: nat, put: Put): seq<World> {
    if r.token in w.approvals && w.approvals[r.token].event.Some?
    then ApprovedStates(w, cfg, r.token, w.approvals[r.token].event.value, now, put) else []
  }

  /** The state when the process dies after this many effects, or at the end. */
  function After(w: World, states: seq<World>, alive: nat): World {
    if alive == 0 || states == [] then w else if alive <= |states| then states[alive - 1] else states[|states| - 1]
  }

  /** The yes of the configured sender, in time, to an approval that was neither created nor rejected. */
  predicate TimelyYes(w: World, cfg: Config, r: Reply, now: nat) {
    && cfg.approver != "" && r.sender == cfg.approver && r.decision == Some(Approve)
    && r.token in w.approvals && !TooLate(w.approvals[r.token], now)
    && w.approvals[r.token].status != Created && w.approvals[r.token].status != Rejected
    && w.approvals[r.token].event.Some?
    && (cfg.requireFuture ==> now < w.approvals[r.token].event.value.pastFrom)
  }

  /** A timely yes is answered by carrying out the creation. */
  lemma ApprovedIsCarriedOut(w: World, cfg: Config, r: Reply, now: nat, put: Put)
    requires TimelyYes(w, cfg, r, now)
    ensures ReplyStates(w, cfg, r, now, put)
            == ApprovedStates(w, cfg, r.token, w.approvals[r.token].event.value, now, put)
    ensures ReplyAnswer(w, cfg, r, now, put) == ApprovedAnswer(w, cfg, r.token, w.approvals[r.token].event.value, put)
  {
  }

  // ----- the program -----

  class Agent {
    const cfg: Config
    var approvals: map<string, Approval>
    var events: map<string, Record>
    var calendar: map<Path, Event>
    var made: seq<Made>

    constructor (cfg: Config, w: World)
      ensures this.cfg == cfg && State() == w
    {
      this.cfg := cfg;
      approvals, events, calendar, made := w.approvals, w.events, w.calendar, w.made;
    }

    function State(): World
      reads this
    {
      World(approvals, events, calendar, made)
    }

    /** Creating an event; `alive` is the number of effects before the process dies. */
    method CreateNormalized(e: Event, put: Put, via: Option<string>, now: nat, alive: nat)
      returns (end: Option<CreateEnd>, used: nat)
      modifies this
      ensures var states := CreateStates(old(State()), cfg, e, put, via, now);
              && State() == After(old(State()), states, alive)
              && end == (if alive >= |states| then Some(old(CreateEndOf(State(), cfg, e, put))) else None)
              && (alive >= |states| ==> used == |states|)
    {
      if e.key in events {
        if events[e.key].fingerprint != e.fingerprint {
          return Some(Review), 0;
        }
        if events[e.key].status == EventCreated {
          return Some(Duplicate), 0;
        }
      }
      if alive == 0 {
        return None, 0;
      }
      if !cfg.autoCreate || !cfg.backend {
        events := events[e.key := Record(e.fingerprint, EventPending)];
        return Some(Review), 1;
      }
      var exists' := e.file in calendar;
      if put != FailsBefore && !exists' {
        calendar := calendar[e.file := e];
        made := made + [Made(e, e.file, via, now)];
      }
      if alive == 1 {
        return None, 1;
      }
      if put == Works {
        events := events[e.key := Record(e.fingerprint, EventCreated)];
        return Some(if exists' then Duplicate else Done), 2;
      }
      events := events[e.key := Record(e.fingerprint, EventError)];
      return Some(Failed), 2;
    }

    method Update(token: string, s: ApprovalStatus)
      requires token in approvals
      modifies this`approvals
      ensures State() == SetStatus(old(State()), token, s)
    {
      approvals := approvals[token := approvals[token].(status := s)];
    }

    /** The approved creation with the status changes around it. */
    method CreateApproved(token: string, e: Event, now: nat, put: Put, alive: nat) returns (answer: Option<Answer>)
      requires token in approvals
      modifies this
      ensures var states := ApprovedStates(old(State()), cfg, token, e, now, put);
              && State() == After(old(State()), states, alive)
              && answer == (if alive >= |states| then Some(old(ApprovedAnswer(State(), cfg, token, e, put))) else None)
    {
      if alive == 0 {
        return None;
      }
      Update(token, ApprovedCreating);
      var end, used := CreateNormalized(e, put, Some(token), now, alive - 1);
      if end.None? || alive - 1 == used {
        return None;
      }
      if end.value == Done || end.value == Duplicate {
        Update(token, Created);
        return Some(ApprovalCreated);
      }
      Update(token, CreateError);
      answer := Some(CreateFailed);
    }

    /** Closing an approval without creating anything. */
    method Decline(token: string, s: ApprovalStatus, code: Answer, alive: nat) returns (answer: Option<Answer>)
      requires token in approvals
      modifies this`approvals
      ensures State() == After(old(State()), [SetStatus(old(State()), token, s)], alive)
      ensures answer == if alive >= 1 then Some(code) else None
    {
      if alive == 0 {
        return None;
      }
      Update(token, s);
      answer := Some(code);
    }

    method HandleApprovalReply(r: Reply, now: nat, put: Put, alive: nat) returns (answer: Option<Answer>)
      modifies this
      ensures State() == After(old(State()), old(ReplyStates(State(), cfg, r, now, put)), alive)
      ensures answer == if alive >= |old(ReplyStates(State(), cfg, r, now, put))|
                        then Some(old(ReplyAnswer(State(), cfg, r, now, put))) else None
    {
      if cfg.approver == "" || r.sender != cfg.approver {
        return Some(SenderRejected);
      }
      if r.token !in approvals {
        return Some(TokenUnknown);
      }
      if r.decision.None? {
        return Some(AnswerInvalid);
      }
      var a := approvals[r.token];
      if a.status == Created {
        return Some(AlreadyCreated);
      }
      if a.status == Rejected {
        return Some(AlreadyRejected);
      }
      if TooLate(a, now) {
        answer := Decline(r.token, Expired, ApprovalExpired, alive);
      } else if r.decision.value == Reject {
        answer := Decline(r.token, Rejected, ApprovalRejected, alive);
      } else if a.event.None? {
        answer := Decline(r.token, CreateError, EventInvalid, alive);
      } else if cfg.requireFuture && a.event.value.pastFrom <= now {
        answer := Decline(r.token, Past, PastEvent, alive);
      } else {
        ApprovedIsCarriedOut(State(), cfg, r, now, put);
        answer := CreateApproved(r.token, a.event.value, now, put, alive);
      }
    }

    /** A mail with an event. */
    method Process(m: Mail, put: Put, now: nat, alive: nat)
      modifies this
      ensures State() == After(old(State()), old(ProcessStates(State(), cfg, m, put, now)), alive)
    {
      if TooOld(cfg, m.event, now) {
        return;
      }
      if !m.confident {
        Store(LowKey(m.event), m.event, EventLowConfidence, alive);
      } else if cfg.approvalRequired {
        return;
      } else if !m.confirmed {
        Store(m.event.key, m.event, EventPending, alive);
      } else if cfg.requireTrusted && !m.trusted {
        Store(m.event.key, m.event, EventUntrusted, alive);
      } else {
        var end, used := CreateNormalized(m.event, put, None, now, alive);
      }
    }

    /** Writing one record over whatever is there. */
    method Store(key: string, e: Event, s: EventStatus, alive: nat)
      modifies this`events
      ensures State() == After(old(State()), [SetRecordAt(old(State()), key, e, s)], alive)
    {
      if alive >= 1 {
        events := events[key := Record(e.fingerprint, s)];
      }
    }

    /** A command mail from the owner. */
    method ProcessCommand(e: Event, bridge: Bridge, now: nat, alive: nat)
      modifies this
      ensures State() == After(old(State()), old(CommandStates(State(), cfg, e, bridge, now)), alive)
    {
      if TooOld(cfg, e, now) || alive == 0 {
        return;
      }
      if bridge.BridgeCreates? && e.href in calendar {
        return;
      }
      if (bridge.BridgeCreates? || (bridge.BridgeFails? && bridge.effect)) && e.href !in calendar {
        calendar := calendar[e.href := e];
        made := made + [Made(e, e.href, None, now)];
      }
      if bridge.BridgeCreates? {
        Store(e.key, e, EventCreated, alive - 1);
      } else if bridge.BridgeKnowsIt? {
        Store(e.key, e, EventDuplicate, alive);
      }
    }
  }
}
