// The approval lifecycle: what one critical section of it does to the request map and to the
// durable event log (daemon/internal/approval/lifecycle.go), and the object that does it.
module Approval {
  import opened Wrappers
  import opened Intents

  type Id = string

  datatype State = Pending | Approved | Rejected | AlternativeRequested | Expired

  datatype Decision = Approve | Reject | RequestAlternative

  function Target(kind: Decision): State {
    match kind
    case Approve => Approved
    case Reject => Rejected
    case RequestAlternative => AlternativeRequested
  }

  // `waiting` is the open decision channel of the source; `born` remembers the state the
  // request entered with and is read by no operation.
  datatype Request = Request(
    hash: string,
    intent: Intent,
    born: State,
    state: State,
    decidedBy: string,
    expiresAt: Instant,
    executed: bool,
    waiting: bool)

  datatype Event =
    | Requested(id: Id, hash: string, intent: Intent, born: State, who: string)
    | Decided(id: Id, kind: Decision, who: string)
    | Lapsed(id: Id)
    | Executing(id: Id)
    | Finished(id: Id, ok: bool)
    | Reserved(id: Id, expiry: Instant)
    | HoldClosed(id: Id)
    | Evaluated(intentId: string)
    | Unreadable

  type Requests = map<Id, Request>

  // The request intake opens for an intent the policy did not deny.
  function OpenRequest(hash: string, intent: Intent, auto: bool): Request {
    if auto then Request(hash, intent, Approved, Approved, "policy-engine", intent.expiresAt, false, false)
    else Request(hash, intent, Pending, Pending, "", intent.expiresAt, false, true)
  }

  // An auto-approved intent is born approved, by the policy engine, with nobody waiting; any other
  // is born pending and undecided, and its submitter waits. Neither is claimed.
  lemma OpenedStanding(hash: string, intent: Intent, auto: bool)
    ensures var q := OpenRequest(hash, intent, auto);
            && (q.state == Approved <==> auto) && (q.state == Pending <==> !auto) && q.born == q.state
            && q.decidedBy == (if auto then "policy-engine" else "") && (q.waiting <==> !auto) && !q.executed
            && q.hash == hash && q.intent == intent && q.expiresAt == intent.expiresAt
  {
  }

  // ----- Replay: what a restart makes of the log -----

  function Opened(e: Event): Request
    requires e.Requested?
  {
    Request(e.hash, e.intent, e.born, e.born, e.who, e.intent.expiresAt, false, false)
  }

  function Apply(m: Requests, e: Event): Requests {
    match e
    case Requested(id, _, _, _, _) => if id == "" then m else m[id := Opened(e)]
    case Decided(id, kind, who) =>
      if id != "" && id in m then m[id := m[id].(state := Target(kind), decidedBy := who)] else m
    case Lapsed(id) => if id != "" && id in m then m[id := m[id].(state := Expired)] else m
    case Executing(id) => if id != "" && id in m then m[id := m[id].(executed := true)] else m
    case _ => m
  }

  // The fold of the log over a starting map.
  function ReplayOver(m: Requests, log: seq<Event>): Requests {
    if log == [] then m else Apply(ReplayOver(m, log[..|log| - 1]), log[|log| - 1])
  }

  function Replay(log: seq<Event>): Requests {
    ReplayOver(map[], log)
  }

  predicate Opens(log: seq<Event>, id: Id) {
    log != [] && ((log[|log| - 1].Requested? && log[|log| - 1].id == id) || Opens(log[..|log| - 1], id))
  }

  // Replay starting from a map agrees with replay from nothing on every request the log opens,
  // and leaves every other request out of the map's domain unless it was already there.
  lemma {:induction false} ReplayForgets(m: Requests, log: seq<Event>, id: Id)
    requires id != ""
    ensures Opens(log, id) ==>
              && id in ReplayOver(m, log) && id in Replay(log)
              && ReplayOver(m, log)[id] == Replay(log)[id]
    ensures !Opens(log, id) ==> (id in ReplayOver(m, log) <==> id in m) && id !in Replay(log)
  {
    if log != [] {
      ReplayForgets(m, log[..|log| - 1], id);
    }
  }

  lemma {:induction false} ReplayNamesNoEmptyId(m: Requests, log: seq<Event>)
    requires "" !in m
    ensures "" !in ReplayOver(m, log)
  {
    if log != [] { ReplayNamesNoEmptyId(m, log[..|log| - 1]); }
  }

  // Recovering twice over the same log is recovering once.
  lemma ReplayIdempotent(log: seq<Event>)
    ensures ReplayOver(Replay(log), log) == Replay(log)
  {
    var once := Replay(log);
    var twice := ReplayOver(once, log);
    ReplayNamesNoEmptyId(map[], log);
    ReplayNamesNoEmptyId(once, log);
    forall id | id in once || id in twice
      ensures id in once && id in twice && once[id] == twice[id]
    {
      ReplayForgets(once, log, id);
    }
    assert once.Keys == twice.Keys;
  }

  // ----- Critical sections -----

  datatype DecideResult =
    | NoDecider
    | UnknownRequest
    | UnknownKind
    | Repeated
    | AlreadyDecided
    | TooLate
    | Recorded
    | AppendFailed

  // One call of Decide: it holds the mutex throughout, so it is one step. `appended` says
  // whether the log accepts the event.
  function DecideEffect(m: Requests, id: Id, kind: Option<Decision>, who: string, now: Instant, appended: bool)
    : (r: (DecideResult, Requests, seq<Event>))
  {
    if who == "" then (NoDecider, m, [])
    else if id !in m then (UnknownRequest, m, [])
    else if kind.None? then (UnknownKind, m, [])
    else if m[id].state == Target(kind.value) && m[id].decidedBy == who then (Repeated, m, [])
    else if m[id].state != Pending then (AlreadyDecided, m, [])
    else if now >= m[id].expiresAt then
      (if appended then TooLate else AppendFailed,
       m[id := m[id].(state := Expired, waiting := false)],
       if appended then [Lapsed(id)] else [])
    else
      (if appended then Recorded else AppendFailed,
       m[id := m[id].(state := Target(kind.value), decidedBy := who, waiting := false)],
       if appended then [Decided(id, kind.value, who)] else [])
  }

  // The decisions by name: what each makes of a pending request within its window, and what its
  // event makes of the request after a restart. Anything else about the request stays.
  lemma DecisionsByName(m: Requests, id: Id, who: string, now: Instant, appended: bool)
    requires id != "" && id in m && m[id].state == Pending && who != "" && now < m[id].expiresAt
    ensures forall kind :: var (r, m', events) := DecideEffect(m, id, Some(kind), who, now, appended);
              && r == (if appended then Recorded else AppendFailed)
              && events == (if appended then [Decided(id, kind, who)] else [])
              && m' == m[id := m'[id]] && m'[id] == m[id].(state := m'[id].state, decidedBy := who, waiting := false)
              && (m'[id].state == Approved <==> kind == Approve)
              && (m'[id].state == Rejected <==> kind == Reject)
              && (m'[id].state == AlternativeRequested <==> kind == RequestAlternative)
              && Apply(m, Decided(id, kind, who)) == m[id := m'[id].(waiting := m[id].waiting)]
  {
    forall kind ensures m[id := m[id].(state := Target(kind), decidedBy := who)]
                        == m[id := m[id].(state := Target(kind), decidedBy := who, waiting := false).(waiting := m[id].waiting)]
    {
    }
  }

  // Otherwise nothing is decided: a repetition of the standing decision by its own decider and a
  // decision on a closed request change nothing, and a pending request past its window expires.
  lemma NothingDecided(m: Requests, id: Id, kind: Decision, who: string, now: Instant, appended: bool)
    requires id in m && who != "" && (m[id].state != Pending || now >= m[id].expiresAt)
    ensures var (r, m', events) := DecideEffect(m, id, Some(kind), who, now, appended);
            if m[id].state == Pending then
              && r == (if appended then TooLate else AppendFailed) && events == (if appended then [Lapsed(id)] else [])
              && m' == m[id := m[id].(state := Expired, waiting := false)]
            else
              && m' == m && events == []
              && r == (if m[id].decidedBy == who &&
                          ((kind == Approve && m[id].state == Approved) || (kind == Reject && m[id].state == Rejected)
                           || (kind == RequestAlternative && m[id].state == AlternativeRequested))
                       then Repeated else AlreadyDecided)
  {
  }

  datatype Admission =
    | Unknown
    | Frozen
    | HashMismatch
    | NotApproved
    | WindowElapsed
    | PolicyChanged
    | AlreadyExecuted
    | Admitted

  // The gated half of Execute, which runs under one hold of the mutex. The kill switch is asked
  // on entry and again at the end, when the execution is also counted.
  function Admit(m: Requests, id: Id, presented: string, now: Instant, version: string,
                 frozenAtEntry: bool, frozenAtClaim: bool): (r: (Admission, Requests))
  {
    if id !in m then (Unknown, m)
    else if frozenAtEntry then (Frozen, m)
    else if presented != m[id].hash then (HashMismatch, m)
    else if m[id].state == Expired then (WindowElapsed, m)
    else if m[id].state != Approved then (NotApproved, m)
    else if now >= m[id].expiresAt then
      (WindowElapsed, m[id := m[id].(state := Expired, waiting := false)])
    else if m[id].intent.policyVersion != version then (PolicyChanged, m)
    else if m[id].executed then (AlreadyExecuted, m)
    else if frozenAtClaim then (Frozen, m)
    else (Admitted, m[id := m[id].(executed := true)])
  }

  function Unclaim(m: Requests, id: Id): Requests {
    if id in m then m[id := m[id].(executed := false)] else m
  }

  // What every gate having passed means for the claimed request.
  predicate Executable(m: Requests, id: Id, now: Instant, version: string) {
    && id in m
    && m[id].state == Approved
    && now < m[id].expiresAt
    && m[id].intent.policyVersion == version
    && !m[id].executed
  }

  // Admission is granted exactly to an executable request presented with its own hash in an
  // unfrozen scope, and it changes nothing but that request's claim.
  lemma AdmissionIsExact(m: Requests, id: Id, presented: string, now: Instant, version: string,
                         frozenAtEntry: bool, frozenAtClaim: bool)
    ensures var (a, m') := Admit(m, id, presented, now, version, frozenAtEntry, frozenAtClaim);
            && (a == Admitted <==>
                Executable(m, id, now, version) && presented == m[id].hash && !frozenAtEntry && !frozenAtClaim)
            && (a == Admitted ==> Unclaim(m', id) == m && !Executable(m', id, now, version))
            && m'.Keys == m.Keys
            && forall x :: x in m && x != id ==> m'[x] == m[x]
  {
    var (a, m') := Admit(m, id, presented, now, version, frozenAtEntry, frozenAtClaim);
    if a == Admitted {
      assert m[id].(executed := true).(executed := false) == m[id];
      assert Unclaim(m', id) == m;
    }
  }

  // ----- Facts about a log, and how one append changes them -----

  predicate Approves(e: Event, id: Id) {
    (e.Requested? && e.id == id && e.born == Approved) || (e.Decided? && e.id == id && e.kind == Approve)
  }

  predicate ApprovalLogged(log: seq<Event>, id: Id) {
    log != [] && (Approves(log[|log| - 1], id) || ApprovalLogged(log[..|log| - 1], id))
  }

  predicate HoldLogged(log: seq<Event>, id: Id) {
    log != [] && ((log[|log| - 1].Reserved? && log[|log| - 1].id == id) || HoldLogged(log[..|log| - 1], id))
  }

  function ClaimCount(log: seq<Event>, id: Id): nat {
    if log == [] then 0
    else ClaimCount(log[..|log| - 1], id) + if log[|log| - 1] == Executing(id) then 1 else 0
  }

  lemma LogAppend(log: seq<Event>, e: Event)
    ensures Replay(log + [e]) == Apply(Replay(log), e)
    ensures forall id :: ApprovalLogged(log + [e], id) <==> ApprovalLogged(log, id) || Approves(e, id)
    ensures forall id :: HoldLogged(log + [e], id) <==> HoldLogged(log, id) || (e.Reserved? && e.id == id)
    ensures forall id :: ClaimCount(log + [e], id) == ClaimCount(log, id) + if e == Executing(id) then 1 else 0
  {
    assert (log + [e])[..|log|] == log;
  }
}
