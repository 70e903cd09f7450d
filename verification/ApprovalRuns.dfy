// The approval lifecycle, the reservation ledger's expiry sweeper and the clock as one state
// machine. A critical section is one step; every append is its own step and may fail; a crash
// loses everything but the log and the nonce table, and a boot replays the log
// (daemon/internal/approval/lifecycle.go, daemon/internal/budget/budget.go,
// daemon/cmd/snapfall/main.go).
module ApprovalRuns {
  import opened Wrappers
  import opened Intents
  import opened Approval
  import Budget

  // The intent hash and the request id derived from it.
  datatype World = World(hash: Intent -> string, ident: Intent -> Id)

  // The hash is collision free; request ids are too, since every intent carries a fresh nonce.
  ghost predicate Collisionless(w: World) {
    && (forall a, b :: w.hash(a) == w.hash(b) ==> a == b)
    && (forall a, b :: w.ident(a) == w.ident(b) ==> a == b)
    && (forall a :: w.ident(a) != "")
  }

  datatype Stage = NonceClaimed | Held | Logged

  // A Submit past its nonce claim; the claimed nonce names the thread.
  datatype Submission = Submission(id: Id, req: Request, stage: Stage)

  // What was true when an execution passed its gates.
  datatype Claim = Claim(
    id: Id,
    presented: Intent,
    bound: Intent,
    born: State,
    state: State,
    decidedBy: string,
    at: Instant,
    version: string,
    frozen: set<string>)

  // An Execute past its gates; `durable` once its claim is in the log.
  datatype Execution = Execution(claim: Claim, durable: bool)

  // One hold as the ledger keeps it in memory.
  datatype Entry = Entry(reserved: bool, expiry: Option<Instant>, claimed: bool, closed: bool)

  type Ledger = map<Id, Entry>

  // One Sweep call: it has read the clock; then the durable claims; then collected the holds that
  // look dead, of which `cleared` also answered "not claimed" from the lifecycle's memory.
  datatype Sweeping =
    | Clocked(at: Instant)
    | ClaimsRead(at: Instant, claims: set<Id>)
    | Collected(dead: set<Id>, cleared: set<Id>)

  datatype Sys = Sys(
    now: Instant,
    version: string,
    frozen: set<string>,
    up: bool,
    log: seq<Event>,
    nonces: set<string>,
    mem: Requests,
    ledger: Ledger,
    submits: map<string, Submission>,
    execs: map<nat, Execution>,
    sweeps: map<nat, Sweeping>,
    started: seq<Claim>,
    swept: set<Id>)

  // ----- The reservation ledger -----

  function EntryOf(m: Ledger, id: Id): Entry {
    if id in m then m[id] else Entry(false, None, false, false)
  }

  // A stored expiry at or before the epoch reads back as none, and such a hold is never swept.
  function LedgerApply(m: Ledger, e: Event): Ledger {
    match e
    case Reserved(id, expiry) =>
      if id == "" then m
      else m[id := EntryOf(m, id).(reserved := true, expiry := if expiry > 0 then Some(expiry) else None)]
    case HoldClosed(id) => if id == "" then m else m[id := EntryOf(m, id).(closed := true)]
    case Executing(id) => if id == "" then m else m[id := EntryOf(m, id).(claimed := true)]
    case _ => m
  }

  function LedgerFold(log: seq<Event>): Ledger {
    if log == [] then map[] else LedgerApply(LedgerFold(log[..|log| - 1]), log[|log| - 1])
  }

  function WithClaims(m: Ledger, claims: set<Id>): Ledger {
    map id | id in m.Keys + claims :: if id in claims then EntryOf(m, id).(claimed := true) else m[id]
  }

  function Dead(m: Ledger, at: Instant): set<Id> {
    set id | id in m && m[id].reserved && !m[id].closed && !m[id].claimed
             && m[id].expiry.Some? && at >= m[id].expiry.value
  }

  // ----- Steps -----

  datatype WorldStep =
    | Tick(nanos: nat)
    | Repolicy(version: string)
    | Refreeze(frozen: set<string>)
    | Audit(e: Event)
    | CloseHold(id: Id)
    | Crash
    | Boot

  datatype IntakeStep =
    | Begin(presented: Intent, auto: bool)
    | Reserve
    | LogRequest
    | Publish
    | Abandon

  datatype ExecStep =
    | Gate(id: Id, presented: Intent, frozenAtEntry: bool)
    | LogClaim
    | DropClaim
    | Start

  datatype SweepStep =
    | Clock
    | ReadClaims
    | Collect
    | Ask(id: Id)
    | Release(id: Id, appended: bool)
    | Stop

  // A step of the world; of the Submit that claimed `nonce`; of the thread `tid` inside Execute or
  // Sweep; or one whole Decide, which holds the mutex throughout.
  datatype Step =
    | Outside(o: WorldStep)
    | Intake(nonce: string, i: IntakeStep)
    | Decide(id: Id, kind: Option<Decision>, who: string, appended: bool)
    | Exec(tid: nat, x: ExecStep)
    | Sweep(tid: nat, y: SweepStep)

  // The kill switch covers an intent through its org, job or agent; an empty name covers nothing.
  predicate Covered(frozen: set<string>, i: Intent) {
    || (i.orgId != "" && "org:" + i.orgId in frozen)
    || (i.jobId != "" && "job:" + i.jobId in frozen)
    || (i.agentId != "" && "agent:" + i.agentId in frozen)
  }

  // Exactly an engaged switch of a scope the intent names covers it.
  lemma CoversExactly(frozen: set<string>, i: Intent)
    ensures Covered(frozen, i) <==>
              exists p :: p in {("org", i.orgId), ("job", i.jobId), ("agent", i.agentId)}
                          && p.1 != "" && p.0 + ":" + p.1 in frozen
  {
    assert "org" + ":" + i.orgId == "org:" + i.orgId;
    assert "job" + ":" + i.jobId == "job:" + i.jobId;
    assert "agent" + ":" + i.agentId == "agent:" + i.agentId;
    var scopes := {("org", i.orgId), ("job", i.jobId), ("agent", i.agentId)};
    assert ("org", i.orgId) in scopes && ("job", i.jobId) in scopes && ("agent", i.agentId) in scopes;
  }

  predicate WorldEnabled(s: Sys, o: WorldStep) {
    match o
    case Audit(e) => s.up && (e.Finished? || e.Evaluated?)
    case CloseHold(id) => s.up && id in s.ledger && id != ""
    case Crash => s.up
    case Boot => !s.up
    case _ => true
  }

  function WorldDo(s: Sys, o: WorldStep): Sys
    requires WorldEnabled(s, o)
  {
    match o
    case Tick(nanos) => s.(now := s.now + nanos)
    case Repolicy(version) => s.(version := version)
    case Refreeze(frozen) => s.(frozen := frozen)
    case Audit(e) => s.(log := s.log + [e])
    case CloseHold(id) =>
      s.(log := s.log + [HoldClosed(id)], ledger := s.ledger[id := s.ledger[id].(closed := true)])
    case Crash => s.(up := false, mem := map[], ledger := map[], submits := map[], execs := map[], sweeps := map[])
    case Boot => s.(up := true, mem := Replay(s.log), ledger := LedgerFold(s.log))
  }

  // The advance door goes straight to the log; a payment takes its hold first, which the policy and
  // the ledger grant to an openable intent only.
  predicate IntakeEnabled(s: Sys, n: string, i: IntakeStep) {
    match i
    case Begin(presented, auto) =>
      && s.up && n == presented.nonce && n !in s.nonces && !Covered(s.frozen, presented)
      && (presented.kind == ADVANCE ==> !auto)
    case Reserve =>
      s.up && n in s.submits && s.submits[n].stage == NonceClaimed && Budget.Openable(s.submits[n].req.intent)
    case LogRequest =>
      && s.up && n in s.submits
      && s.submits[n].stage == if s.submits[n].req.intent.kind == ADVANCE then NonceClaimed else Held
    case Publish => s.up && n in s.submits && s.submits[n].stage == Logged
    case Abandon => s.up && n in s.submits && s.submits[n].stage != Logged
  }

  function RequestEvent(sub: Submission): Event {
    Requested(sub.id, sub.req.hash, sub.req.intent, sub.req.born, sub.req.decidedBy)
  }

  function Beginning(w: World, version: string, presented: Intent, auto: bool): Submission {
    var intent := presented.(policyVersion := version);
    Submission(w.ident(intent), OpenRequest(w.hash(intent), intent, auto), NonceClaimed)
  }

  // An expiry at second precision, in memory; the zero time is none.
  function HeldExpiry(t: Instant): Option<Instant> {
    if WholeSeconds(t) == Budget.ZERO_TIME then None else Some(WholeSeconds(t))
  }

  function IntakeDo(w: World, s: Sys, n: string, i: IntakeStep): Sys
    requires IntakeEnabled(s, n, i)
  {
    match i
    case Begin(presented, auto) =>
      s.(nonces := s.nonces + {n}, submits := s.submits[n := Beginning(w, s.version, presented, auto)])
    case Reserve =>
      var sub := s.submits[n];
      var expiry := sub.req.intent.expiresAt;
      s.(log := s.log + [Reserved(sub.id, WholeSeconds(expiry))],
         ledger := s.ledger[sub.id := EntryOf(s.ledger, sub.id).(reserved := true, expiry := HeldExpiry(expiry))],
         submits := s.submits[n := sub.(stage := Held)])
    case LogRequest =>
      var sub := s.submits[n];
      s.(log := s.log + [RequestEvent(sub)], submits := s.submits[n := sub.(stage := Logged)])
    case Publish =>
      s.(mem := s.mem[s.submits[n].id := s.submits[n].req], submits := s.submits - {n})
    case Abandon => s.(submits := s.submits - {n})
  }

  function DecideDo(s: Sys, id: Id, kind: Option<Decision>, who: string, appended: bool): Sys {
    var (_, mem, events) := DecideEffect(s.mem, id, kind, who, s.now, appended);
    s.(mem := mem, log := s.log + events)
  }

  predicate ExecEnabled(s: Sys, tid: nat, x: ExecStep) {
    match x
    case Gate(_, _, _) => s.up && tid !in s.execs
    case Start => s.up && tid in s.execs && s.execs[tid].durable
    case _ => s.up && tid in s.execs && !s.execs[tid].durable
  }

  // The kill switch as the claim finds it; on entry it may have answered otherwise.
  function AdmitNow(w: World, s: Sys, id: Id, presented: Intent, frozenAtEntry: bool): (Admission, Requests) {
    Admit(s.mem, id, w.hash(presented), s.now, s.version, frozenAtEntry, FrozenNow(s, id))
  }

  predicate FrozenNow(s: Sys, id: Id) {
    id in s.mem && Covered(s.frozen, s.mem[id].intent)
  }

  function ClaimOf(s: Sys, id: Id, presented: Intent): Claim
    requires id in s.mem
  {
    var q := s.mem[id];
    Claim(id, presented, q.intent, q.born, q.state, q.decidedBy, s.now, s.version, s.frozen)
  }

  function ExecDo(w: World, s: Sys, tid: nat, x: ExecStep): Sys
    requires ExecEnabled(s, tid, x)
  {
    match x
    case Gate(id, presented, frozenAtEntry) =>
      var (verdict, mem) := AdmitNow(w, s, id, presented, frozenAtEntry);
      if verdict != Admitted then s.(mem := mem)
      else s.(mem := mem, execs := s.execs[tid := Execution(ClaimOf(s, id, presented), false)])
    case LogClaim =>
      s.(log := s.log + [Executing(s.execs[tid].claim.id)], execs := s.execs[tid := s.execs[tid].(durable := true)])
    case DropClaim => s.(mem := Unclaim(s.mem, s.execs[tid].claim.id), execs := s.execs - {tid})
    case Start => s.(started := s.started + [s.execs[tid].claim], execs := s.execs - {tid})
  }

  predicate SweepEnabled(s: Sys, tid: nat, y: SweepStep) {
    match y
    case Clock => s.up && tid !in s.sweeps
    case ReadClaims => s.up && tid in s.sweeps && s.sweeps[tid].Clocked?
    case Collect => s.up && tid in s.sweeps && s.sweeps[tid].ClaimsRead?
    case Ask(id) => s.up && tid in s.sweeps && s.sweeps[tid].Collected? && id in s.sweeps[tid].dead
    case Release(id, _) => s.up && tid in s.sweeps && s.sweeps[tid].Collected? && id in s.sweeps[tid].cleared
    case Stop => s.up && tid in s.sweeps
  }

  function ClaimsIn(log: seq<Event>): set<Id> {
    set e | e in log && e.Executing? :: e.id
  }

  function SweepDo(s: Sys, tid: nat, y: SweepStep): Sys
    requires SweepEnabled(s, tid, y)
  {
    match y
    case Clock => s.(sweeps := s.sweeps[tid := Clocked(s.now)])
    case ReadClaims => s.(sweeps := s.sweeps[tid := ClaimsRead(s.sweeps[tid].at, ClaimsIn(s.log))])
    case Collect =>
      var ledger := WithClaims(s.ledger, s.sweeps[tid].claims);
      s.(ledger := ledger, sweeps := s.sweeps[tid := Collected(Dead(ledger, s.sweeps[tid].at), {})])
    case Ask(id) =>
      var now := s.sweeps[tid];
      var claimed := id in s.mem && s.mem[id].executed;
      s.(sweeps := s.sweeps[tid := Collected(now.dead - {id}, if claimed then now.cleared else now.cleared + {id})])
    case Release(id, appended) =>
      var rest := s.sweeps[tid].(cleared := s.sweeps[tid].cleared - {id});
      var entry := EntryOf(s.ledger, id);
      if entry.reserved && entry.closed then s.(sweeps := s.sweeps[tid := rest])
      else if !entry.reserved || !appended then s.(sweeps := s.sweeps - {tid})
      else
        s.(log := s.log + [HoldClosed(id)],
           ledger := s.ledger[id := entry.(closed := true)],
           sweeps := s.sweeps[tid := rest],
           swept := s.swept + {id})
    case Stop => s.(sweeps := s.sweeps - {tid})
  }

  predicate Enabled(w: World, s: Sys, t: Step) {
    match t
    case Outside(o) => WorldEnabled(s, o)
    case Intake(n, i) => IntakeEnabled(s, n, i)
    case Decide(_, _, _, _) => s.up
    case Exec(tid, x) => ExecEnabled(s, tid, x)
    case Sweep(tid, y) => SweepEnabled(s, tid, y)
  }

  function Do(w: World, s: Sys, t: Step): Sys
    requires Enabled(w, s, t)
  {
    match t
    case Outside(o) => WorldDo(s, o)
    case Intake(n, i) => IntakeDo(w, s, n, i)
    case Decide(id, kind, who, appended) => DecideDo(s, id, kind, who, appended)
    case Exec(tid, x) => ExecDo(w, s, tid, x)
    case Sweep(tid, y) => SweepDo(s, tid, y)
  }

  // ----- Runs -----

  // An installation that has never run.
  predicate Initial(s: Sys) {
    && !s.up && s.log == [] && s.nonces == {} && s.started == [] && s.swept == {}
    && s.mem == map[] && s.ledger == map[] && s.submits == map[] && s.execs == map[] && s.sweeps == map[]
  }

  ghost predicate Run(w: World, states: seq<Sys>, steps: seq<Step>) {
    && |states| == |steps| + 1
    && Initial(states[0])
    && forall k :: 0 <= k < |steps| ==> Enabled(w, states[k], steps[k]) && states[k + 1] == Do(w, states[k], steps[k])
  }
}
