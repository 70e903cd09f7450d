// The lifecycle object against the state machine: whatever the world answers, each method call is a
// list of the machine's steps, one refusal, failed append or success at a time, and leaves the same
// requests, log, nonces and executor starts (daemon/internal/approval/lifecycle.go).
module LifecycleSteps {
  import opened Wrappers
  import opened Intents
  import opened Approval
  import opened ApprovalRuns
  import opened ApprovalSafety
  import opened DecisionHistory
  import opened Traces
  import L = Lifecycle
  import Policy
  import Budget

  predicate SameStarts(grants: seq<L.Grant>, started: seq<Claim>) {
    && |grants| == |started|
    && forall k :: 0 <= k < |started| ==> grants[k] == L.Grant(started[k].presented, started[k].id)
  }

  // The object holds what the machine's state holds.
  ghost predicate Matches(l: L.Lifecycle, w: World, s: Sys)
    reads l
  {
    && l.hash == w.hash && l.ident == w.ident
    && l.requests == s.mem && l.log == s.log && l.nonces == s.nonces
    && SameStarts(l.grants, s.started)
  }

  // The steps change nothing of a state but what intake writes.
  predicate SameElsewhere(s: Sys, end: Sys) {
    && end == s.(mem := end.mem, log := end.log, nonces := end.nonces, ledger := end.ledger)
  }

  predicate Idle(s: Sys, nonce: string) {
    s.up && (nonce !in s.nonces ==> nonce !in s.submits)
  }

  // ----- Submit -----

  // The kill switch and the version are the machine's own, and only an openable intent passes both
  // the policy and the ledger, as Budget.OpenableExactly has it.
  predicate Answers(s: Sys, presented: Intent, world: L.Intake) {
    && world.frozen == Covered(s.frozen, presented) && world.version == s.version
    && (world.outcome != Policy.Deny && world.held ==> Budget.Openable(presented))
  }

  function BeginSteps(presented: Intent, auto: bool): seq<Step> {
    [] + [Intake(presented.nonce, Begin(presented, auto))]
  }

  function AuditSteps(presented: Intent, auto: bool): seq<Step> {
    BeginSteps(presented, auto) + [Outside(Audit(Evaluated(presented.intentId)))]
  }

  function HoldSteps(presented: Intent, auto: bool): seq<Step> {
    AuditSteps(presented, auto) + [Intake(presented.nonce, IntakeStep.Reserve)]
  }

  function SubmitSteps(presented: Intent, outcome: Policy.Outcome, r: L.SubmitResult): seq<Step> {
    var n, auto := presented.nonce, r.Opened? && outcome == Policy.AutoApprove;
    if r.BadAlternativeLink? || r.AuditFailed? then BeginSteps(presented, auto) + [Intake(n, Abandon)]
    else if r.Denied? || r.HoldRefused? then AuditSteps(presented, auto) + [Intake(n, Abandon)]
    else if r.RequestNotLogged? then HoldSteps(presented, auto) + [Intake(n, Abandon)]
    else if r.Opened? then HoldSteps(presented, auto) + [Intake(n, LogRequest)] + [Intake(n, Publish)]
    else []
  }

  function Begun(w: World, s: Sys, presented: Intent, auto: bool): Sys {
    s.(nonces := s.nonces + {presented.nonce},
       submits := s.submits[presented.nonce := Beginning(w, s.version, presented, auto)])
  }

  function Audited(w: World, s: Sys, presented: Intent, auto: bool): Sys {
    Begun(w, s, presented, auto).(log := s.log + [Evaluated(presented.intentId)])
  }

  function HeldNow(w: World, s: Sys, presented: Intent, auto: bool): Sys {
    var sub := Beginning(w, s.version, presented, auto);
    Audited(w, s, presented, auto).(
      log := s.log + [Evaluated(presented.intentId)] + [Reserved(sub.id, WholeSeconds(presented.expiresAt))],
      submits := s.submits[presented.nonce := sub.(stage := Held)],
      ledger := s.ledger[sub.id := EntryOf(s.ledger, sub.id).(reserved := true, expiry := HeldExpiry(presented.expiresAt))])
  }

  predicate CanBegin(s: Sys, presented: Intent, auto: bool) {
    && s.up && !Covered(s.frozen, presented) && presented.nonce !in s.nonces && presented.nonce !in s.submits
    && (presented.kind == ADVANCE ==> !auto)
  }

  lemma BeginRun(w: World, s: Sys, presented: Intent, auto: bool)
    requires CanBegin(s, presented, auto)
    ensures After(Next(w), s, BeginSteps(presented, auto)) == Some(Begun(w, s, presented, auto))
  {
    var t := Intake(presented.nonce, Begin(presented, auto));
    assert Next(w)(s, t) == Some(Begun(w, s, presented, auto));
    ThenOnce(Next(w), s, [], s, t, Begun(w, s, presented, auto));
  }

  lemma AuditRun(w: World, s: Sys, presented: Intent, auto: bool)
    requires CanBegin(s, presented, auto)
    ensures After(Next(w), s, AuditSteps(presented, auto)) == Some(Audited(w, s, presented, auto))
  {
    var t, begun := Outside(Audit(Evaluated(presented.intentId))), Begun(w, s, presented, auto);
    BeginRun(w, s, presented, auto);
    assert Next(w)(begun, t) == Some(Audited(w, s, presented, auto));
    ThenOnce(Next(w), s, BeginSteps(presented, auto), begun, t, Audited(w, s, presented, auto));
  }

  lemma HoldRun(w: World, s: Sys, presented: Intent, auto: bool)
    requires CanBegin(s, presented, auto) && Budget.Openable(presented)
    ensures After(Next(w), s, HoldSteps(presented, auto)) == Some(HeldNow(w, s, presented, auto))
  {
    var t, n := Intake(presented.nonce, IntakeStep.Reserve), presented.nonce;
    var audited, held := Audited(w, s, presented, auto), HeldNow(w, s, presented, auto);
    AuditRun(w, s, presented, auto);
    assert audited.submits[n := audited.submits[n].(stage := Held)] == held.submits;
    assert Next(w)(audited, t) == Some(held);
    ThenOnce(Next(w), s, AuditSteps(presented, auto), audited, t, held);
  }

  // A submission given up leaves its nonce and its trail.
  lemma AbandonRun(w: World, s: Sys, steps: seq<Step>, mid: Sys, n: string, submits: map<string, Submission>)
    requires After(Next(w), s, steps) == Some(mid) && mid.up
    requires n in mid.submits && mid.submits[n].stage != Logged && mid.submits - {n} == submits
    ensures After(Next(w), s, steps + [Intake(n, Abandon)]) == Some(mid.(submits := submits))
  {
    assert Next(w)(mid, Intake(n, Abandon)) == Some(mid.(submits := submits));
    ThenOnce(Next(w), s, steps, mid, Intake(n, Abandon), mid.(submits := submits));
  }

  // A submission logged, then visible.
  lemma PublishRun(w: World, s: Sys, steps: seq<Step>, mid: Sys, n: string, submits: map<string, Submission>)
    requires After(Next(w), s, steps) == Some(mid) && IntakeEnabled(mid, n, LogRequest) && mid.submits - {n} == submits
    ensures var sub := mid.submits[n];
            After(Next(w), s, steps + [Intake(n, LogRequest)] + [Intake(n, Publish)])
            == Some(mid.(log := mid.log + [RequestEvent(sub)], mem := mid.mem[sub.id := sub.req], submits := submits))
  {
    var next, sub := Next(w), mid.submits[n];
    var logged := mid.(log := mid.log + [RequestEvent(sub)], submits := mid.submits[n := sub.(stage := Logged)]);
    var end := logged.(mem := mid.mem[sub.id := sub.req], submits := submits);
    assert next(mid, Intake(n, LogRequest)) == Some(logged);
    ThenOnce(next, s, steps, mid, Intake(n, LogRequest), logged);
    assert logged.submits - {n} == submits;
    assert next(logged, Intake(n, Publish)) == Some(end);
    ThenOnce(next, s, steps + [Intake(n, LogRequest)], logged, Intake(n, Publish), end);
  }

  function SubmitEnd(w: World, s: Sys, presented: Intent, outcome: Policy.Outcome, r: L.SubmitResult): Sys {
    var auto := r.Opened? && outcome == Policy.AutoApprove;
    var sub := Beginning(w, s.version, presented, auto);
    if r.BadAlternativeLink? || r.AuditFailed? then Begun(w, s, presented, auto).(submits := s.submits)
    else if r.Denied? || r.HoldRefused? then Audited(w, s, presented, auto).(submits := s.submits)
    else if r.RequestNotLogged? then HeldNow(w, s, presented, auto).(submits := s.submits)
    else if r.Opened? then
      var held := HeldNow(w, s, presented, auto);
      held.(log := held.log + [RequestEvent(sub)], mem := s.mem[sub.id := sub.req], submits := s.submits)
    else s
  }

  predicate Burns(r: L.SubmitResult) {
    !r.RefusedFrozen? && !r.NonceReplayed? && !r.NonceError? && !r.WrongKind?
  }

  // Every ending of a Submit is a run of the machine.
  lemma SubmitRun(w: World, s: Sys, presented: Intent, outcome: Policy.Outcome, r: L.SubmitResult)
    requires Burns(r) ==> CanBegin(s, presented, r.Opened? && outcome == Policy.AutoApprove)
    requires r.RequestNotLogged? || r.Opened? ==> Budget.Openable(presented)
    ensures After(Next(w), s, SubmitSteps(presented, outcome, r)) == Some(SubmitEnd(w, s, presented, outcome, r))
  {
    var auto := r.Opened? && outcome == Policy.AutoApprove;
    if r.BadAlternativeLink? || r.AuditFailed? {
      BegunRun(w, s, presented, auto);
    } else if r.Denied? || r.HoldRefused? {
      AuditedRun(w, s, presented, auto);
    } else if r.RequestNotLogged? {
      HeldRun(w, s, presented, auto);
    } else if r.Opened? {
      OpenedRun(w, s, presented, auto);
    }
  }

  lemma BegunRun(w: World, s: Sys, presented: Intent, auto: bool)
    requires CanBegin(s, presented, auto)
    ensures After(Next(w), s, BeginSteps(presented, auto) + [Intake(presented.nonce, Abandon)])
            == Some(Begun(w, s, presented, auto).(submits := s.submits))
  {
    BeginRun(w, s, presented, auto);
    assert Begun(w, s, presented, auto).submits - {presented.nonce} == s.submits;
    AbandonRun(w, s, BeginSteps(presented, auto), Begun(w, s, presented, auto), presented.nonce, s.submits);
  }

  lemma AuditedRun(w: World, s: Sys, presented: Intent, auto: bool)
    requires CanBegin(s, presented, auto)
    ensures After(Next(w), s, AuditSteps(presented, auto) + [Intake(presented.nonce, Abandon)])
            == Some(Audited(w, s, presented, auto).(submits := s.submits))
  {
    AuditRun(w, s, presented, auto);
    assert Audited(w, s, presented, auto).submits - {presented.nonce} == s.submits;
    AbandonRun(w, s, AuditSteps(presented, auto), Audited(w, s, presented, auto), presented.nonce, s.submits);
  }

  lemma HeldRun(w: World, s: Sys, presented: Intent, auto: bool)
    requires CanBegin(s, presented, auto) && Budget.Openable(presented)
    ensures After(Next(w), s, HoldSteps(presented, auto) + [Intake(presented.nonce, Abandon)])
            == Some(HeldNow(w, s, presented, auto).(submits := s.submits))
  {
    HoldRun(w, s, presented, auto);
    assert HeldNow(w, s, presented, auto).submits - {presented.nonce} == s.submits;
    AbandonRun(w, s, HoldSteps(presented, auto), HeldNow(w, s, presented, auto), presented.nonce, s.submits);
  }

  lemma OpenedRun(w: World, s: Sys, presented: Intent, auto: bool)
    requires CanBegin(s, presented, auto) && Budget.Openable(presented)
    ensures var n, held, sub := presented.nonce, HeldNow(w, s, presented, auto), Beginning(w, s.version, presented, auto);
            After(Next(w), s, HoldSteps(presented, auto) + [Intake(n, LogRequest)] + [Intake(n, Publish)])
            == Some(held.(log := held.log + [RequestEvent(sub)], mem := s.mem[sub.id := sub.req], submits := s.submits))
  {
    HoldRun(w, s, presented, auto);
    assert HeldNow(w, s, presented, auto).submits - {presented.nonce} == s.submits;
    PublishRun(w, s, HoldSteps(presented, auto), HeldNow(w, s, presented, auto), presented.nonce, s.submits);
  }

  // And ends where the method's contract says.
  lemma EndMeetsContract(l: L.Lifecycle, w: World, s: Sys, presented: Intent, outcome: Policy.Outcome, r: L.SubmitResult)
    requires l.hash == w.hash && l.ident == w.ident
    requires r.Opened? ==> outcome != Policy.Deny && r.id == w.ident(presented.(policyVersion := s.version))
    requires r.RequestNotLogged? ==> outcome != Policy.Deny
    ensures var intent, end := presented.(policyVersion := s.version), SubmitEnd(w, s, presented, outcome, r);
            && end.log == s.log + l.Trail(intent, outcome, r)
            && end.mem == (if r.Opened? then s.mem[r.id := l.Opening(intent, outcome)] else s.mem)
            && end.nonces == s.nonces + (if Burns(r) then {presented.nonce} else {})
            && SameElsewhere(s, end)
  {
    var intent, end := presented.(policyVersion := s.version), SubmitEnd(w, s, presented, outcome, r);
    if r.Opened? {
      TrailIs(l, w, s.log, intent, outcome);
    } else if r.RequestNotLogged? {
      assert end.log == s.log + [Evaluated(intent.intentId), Reserved(w.ident(intent), WholeSeconds(intent.expiresAt))];
    }
  }

  lemma SubmitIsItsSteps(l: L.Lifecycle, w: World, s: Sys, presented: Intent, world: L.Intake, linked: bool)
    returns (end: Sys)
    requires l.hash == w.hash && l.ident == w.ident && Idle(s, presented.nonce) && Answers(s, presented, world)
    ensures var intent := presented.(policyVersion := s.version);
            var r := L.Lifecycle.Verdict(world, presented.nonce in s.nonces, linked, w.ident(intent));
            && After(Next(w), s, SubmitSteps(presented, world.outcome, r)) == Some(end)
            && end.log == s.log + l.Trail(intent, world.outcome, r)
            && end.mem == (if r.Opened? then s.mem[r.id := l.Opening(intent, world.outcome)] else s.mem)
            && end.nonces == s.nonces + (if Burns(r) then {presented.nonce} else {})
            && SameElsewhere(s, end)
  {
    var intent := presented.(policyVersion := s.version);
    var r := L.Lifecycle.Verdict(world, presented.nonce in s.nonces, linked, w.ident(intent));
    SubmitRun(w, s, presented, world.outcome, r);
    EndMeetsContract(l, w, s, presented, world.outcome, r);
    end := SubmitEnd(w, s, presented, world.outcome, r);
  }

  lemma TrailIs(l: L.Lifecycle, w: World, log: seq<Event>, intent: Intent, outcome: Policy.Outcome)
    requires l.hash == w.hash && l.ident == w.ident && outcome != Policy.Deny
    ensures var q := OpenRequest(w.hash(intent), intent, outcome == Policy.AutoApprove);
            log + [Evaluated(intent.intentId)] + [Reserved(w.ident(intent), WholeSeconds(intent.expiresAt))]
            + [Requested(w.ident(intent), q.hash, intent, q.born, q.decidedBy)]
            == log + l.Trail(intent, outcome, L.Opened(w.ident(intent)))
  {
  }

  // The object's own call, run beside the machine.
  method SubmitRefines(l: L.Lifecycle, w: World, ghost s: Sys, presented: Intent, world: L.Intake)
    returns (r: L.SubmitResult, ghost steps: seq<Step>, ghost end: Sys)
    requires l.Valid() && Matches(l, w, s) && Idle(s, presented.nonce) && Answers(s, presented, world)
    modifies l`requests, l`log, l`nonces, l`gates
    ensures l.Valid() && After(Next(w), s, steps) == Some(end) && Matches(l, w, end) && SameElsewhere(s, end)
  {
    ghost var linked := l.LinkOk(presented);
    r := l.Submit(presented, world);
    steps := SubmitSteps(presented, world.outcome, r);
    end := SubmitIsItsSteps(l, w, s, presented, world, linked);
  }

  // Which alternatives may be submitted, over the whole run so far: exactly those of a request on the
  // same job for which an alternative was asked, by a decision that applied and has not been lost.
  lemma AlternativeLinks(l: L.Lifecycle, w: World, states: seq<Sys>, steps: seq<Step>, presented: Intent)
    requires Collisionless(w) && Run(w, states, steps) && states[|steps|].up && Matches(l, w, states[|steps|])
    requires presented.alternativeTo != ""
    ensures l.LinkOk(presented) <==>
              && presented.alternativeTo in states[|steps|].mem
              && states[|steps|].mem[presented.alternativeTo].intent.jobId == presented.jobId
              && StillStands(states, steps, |steps|, presented.alternativeTo, RequestAlternative)
  {
    if presented.alternativeTo in states[|steps|].mem {
      RefusalsStand(w, states, steps, presented.alternativeTo);
    }
  }

  // ----- SubmitAdvance -----

  function AdvanceSteps(presented: Intent, r: L.SubmitResult): seq<Step> {
    var n := presented.nonce;
    if r.RequestNotLogged? then BeginSteps(presented, false) + [Intake(n, Abandon)]
    else if r.Opened? then BeginSteps(presented, false) + [Intake(n, LogRequest)] + [Intake(n, Publish)]
    else []
  }

  method AdvanceRefines(l: L.Lifecycle, w: World, ghost s: Sys, presented: Intent, world: L.Intake)
    returns (r: L.SubmitResult, ghost steps: seq<Step>, ghost end: Sys)
    requires l.Valid() && Matches(l, w, s) && Idle(s, presented.nonce)
    requires world.frozen == Covered(s.frozen, presented) && world.version == s.version
    modifies l`requests, l`log, l`nonces, l`gates
    ensures l.Valid() && After(Next(w), s, steps) == Some(end) && Matches(l, w, end) && SameElsewhere(s, end)
  {
    r := l.SubmitAdvance(presented, world);
    steps := AdvanceSteps(presented, r);
    end := s;
    if r.RequestNotLogged? || r.Opened? {
      end := AdvanceRun(w, s, presented, r);
    }
  }

  lemma AdvanceRun(w: World, s: Sys, presented: Intent, r: L.SubmitResult) returns (end: Sys)
    requires CanBegin(s, presented, false) && presented.kind == ADVANCE && (r.RequestNotLogged? || r.Opened?)
    ensures After(Next(w), s, AdvanceSteps(presented, r)) == Some(end)
    ensures var sub := Beginning(w, s.version, presented, false);
            end == s.(nonces := s.nonces + {presented.nonce},
                      log := if r.Opened? then s.log + [RequestEvent(sub)] else s.log,
                      mem := if r.Opened? then s.mem[sub.id := sub.req] else s.mem)
  {
    var n, begun := presented.nonce, Begun(w, s, presented, false);
    BeginRun(w, s, presented, false);
    assert begun.submits - {n} == s.submits;
    if r.Opened? {
      PublishRun(w, s, BeginSteps(presented, false), begun, n, s.submits);
    } else {
      AbandonRun(w, s, BeginSteps(presented, false), begun, n, s.submits);
    }
    var sub := Beginning(w, s.version, presented, false);
    end := s.(nonces := s.nonces + {presented.nonce},
              log := if r.Opened? then s.log + [RequestEvent(sub)] else s.log,
              mem := if r.Opened? then s.mem[sub.id := sub.req] else s.mem);
  }

  // ----- Execute -----

  // The clock, the version and the kill switch at the claim are the machine's own; on entry the
  // switch may have answered otherwise.
  predicate Meets(s: Sys, id: Id, g: L.Gates) {
    g.now == s.now && g.version == s.version && (id in s.mem ==> g.frozenAtClaim == FrozenNow(s, id))
  }

  function ExecuteSteps(tid: nat, id: Id, presented: Intent, g: L.Gates, admitted: bool): seq<Step> {
    var gate := [] + [Exec(tid, Gate(id, presented, g.frozenAtEntry))];
    if !admitted then gate
    else if !g.claimLogged then gate + [Exec(tid, DropClaim)]
    else
      gate + [Exec(tid, LogClaim)] + [Exec(tid, Start)]
      + if g.outcomeLogged then [Outside(Audit(Finished(id, g.executorOk)))] else []
  }

  // Whatever the gates, the appends and the executor answer: a refused execution, a claim that
  // would not persist, and a started one whose outcome is or is not recorded are each a run of the
  // machine with the method's own requests, log and start.
  lemma ExecuteIsItsSteps(w: World, s: Sys, tid: nat, id: Id, presented: Intent, g: L.Gates) returns (end: Sys)
    requires s.up && tid !in s.execs && Meets(s, id, g)
    ensures var (why, after) := Admit(s.mem, id, w.hash(presented), g.now, g.version, g.frozenAtEntry, g.frozenAtClaim);
            && After(Next(w), s, ExecuteSteps(tid, id, presented, g, why == Admitted)) == Some(end)
            && end == s.(mem := end.mem, log := end.log, started := end.started)
            && (why != Admitted ==> end == s.(mem := after))
            && (why == Admitted && !g.claimLogged ==> end == s)
            && (why == Admitted && g.claimLogged ==>
                  && end.mem == after && end.started == s.started + [ClaimOf(s, id, presented)]
                  && end.log == s.log + [Executing(id)] + (if g.outcomeLogged then [Finished(id, g.executorOk)] else []))
  {
    var next, gate := Next(w), Exec(tid, Gate(id, presented, g.frozenAtEntry));
    var (why, after) := AdmitNow(w, s, id, presented, g.frozenAtEntry);
    if why != Admitted {
      end := s.(mem := after);
      assert next(s, gate) == Some(end);
      ThenOnce(next, s, [], s, gate, end);
    } else if !g.claimLogged {
      DropRun(w, s, tid, id, presented, g.frozenAtEntry);
      end := s;
    } else {
      end := StartRun(w, s, tid, id, presented, g);
    }
  }

  function Claimed(s: Sys, tid: nat, id: Id, presented: Intent): Sys
    requires id in s.mem
  {
    s.(mem := s.mem[id := s.mem[id].(executed := true)], execs := s.execs[tid := Execution(ClaimOf(s, id, presented), false)])
  }

  lemma GateRun(w: World, s: Sys, tid: nat, id: Id, presented: Intent, frozenAtEntry: bool)
    requires s.up && tid !in s.execs && AdmitNow(w, s, id, presented, frozenAtEntry).0 == Admitted
    ensures After(Next(w), s, [] + [Exec(tid, Gate(id, presented, frozenAtEntry))]) == Some(Claimed(s, tid, id, presented))
  {
    var gate := Exec(tid, Gate(id, presented, frozenAtEntry));
    assert Next(w)(s, gate) == Some(Claimed(s, tid, id, presented));
    ThenOnce(Next(w), s, [], s, gate, Claimed(s, tid, id, presented));
  }

  lemma DropRun(w: World, s: Sys, tid: nat, id: Id, presented: Intent, frozenAtEntry: bool)
    requires s.up && tid !in s.execs && AdmitNow(w, s, id, presented, frozenAtEntry).0 == Admitted
    ensures After(Next(w), s, [] + [Exec(tid, Gate(id, presented, frozenAtEntry))] + [Exec(tid, DropClaim)]) == Some(s)
  {
    var claimed := Claimed(s, tid, id, presented);
    GateRun(w, s, tid, id, presented, frozenAtEntry);
    AdmissionIsExact(s.mem, id, w.hash(presented), s.now, s.version, frozenAtEntry, FrozenNow(s, id));
    assert Unclaim(claimed.mem, id) == s.mem && claimed.execs - {tid} == s.execs;
    assert Next(w)(claimed, Exec(tid, DropClaim)) == Some(s);
    ThenOnce(Next(w), s, [] + [Exec(tid, Gate(id, presented, frozenAtEntry))], claimed, Exec(tid, DropClaim), s);
  }

  lemma StartRun(w: World, s: Sys, tid: nat, id: Id, presented: Intent, g: L.Gates) returns (end: Sys)
    requires s.up && tid !in s.execs && AdmitNow(w, s, id, presented, g.frozenAtEntry).0 == Admitted && g.claimLogged
    ensures After(Next(w), s, ExecuteSteps(tid, id, presented, g, true)) == Some(end)
    ensures end == s.(mem := s.mem[id := s.mem[id].(executed := true)],
                      started := s.started + [ClaimOf(s, id, presented)],
                      log := s.log + [Executing(id)] + if g.outcomeLogged then [Finished(id, g.executorOk)] else [])
  {
    var next, gate := Next(w), [] + [Exec(tid, Gate(id, presented, g.frozenAtEntry))];
    var claimed, claim := Claimed(s, tid, id, presented), ClaimOf(s, id, presented);
    var logged := claimed.(log := s.log + [Executing(id)], execs := s.execs[tid := Execution(claim, true)]);
    var running := logged.(started := s.started + [claim], execs := s.execs);
    GateRun(w, s, tid, id, presented, g.frozenAtEntry);
    assert claimed.execs[tid := Execution(claim, true)] == logged.execs;
    assert next(claimed, Exec(tid, LogClaim)) == Some(logged);
    ThenOnce(next, s, gate, claimed, Exec(tid, LogClaim), logged);
    assert logged.execs - {tid} == s.execs;
    assert next(logged, Exec(tid, Start)) == Some(running);
    ThenOnce(next, s, gate + [Exec(tid, LogClaim)], logged, Exec(tid, Start), running);
    end := OutcomeRun(w, s, gate + [Exec(tid, LogClaim)] + [Exec(tid, Start)], running, id, g);
  }

  // The executor's verdict, recorded or not.
  lemma OutcomeRun(w: World, s: Sys, steps: seq<Step>, running: Sys, id: Id, g: L.Gates) returns (end: Sys)
    requires After(Next(w), s, steps) == Some(running) && running.up
    ensures var outcome := if g.outcomeLogged then [Finished(id, g.executorOk)] else [];
            && After(Next(w), s, steps + if g.outcomeLogged then [Outside(Audit(Finished(id, g.executorOk)))] else []) == Some(end)
            && end == running.(log := running.log + outcome)
  {
    if g.outcomeLogged {
      end := running.(log := running.log + [Finished(id, g.executorOk)]);
      assert Next(w)(running, Outside(Audit(Finished(id, g.executorOk)))) == Some(end);
      ThenOnce(Next(w), s, steps, running, Outside(Audit(Finished(id, g.executorOk))), end);
    } else {
      end := running;
      assert steps + [] == steps && running.log + [] == running.log;
    }
  }

  method ExecuteRefines(l: L.Lifecycle, w: World, ghost s: Sys, ghost tid: nat, presented: Intent, id: Id, g: L.Gates)
    returns (r: L.ExecuteResult, ghost steps: seq<Step>, ghost end: Sys)
    requires l.Valid() && Matches(l, w, s) && s.up && tid !in s.execs && Meets(s, id, g)
    modifies l`requests, l`log, l`grants
    ensures l.Valid() && After(Next(w), s, steps) == Some(end) && Matches(l, w, end)
    ensures end == s.(mem := end.mem, log := end.log, started := end.started)
  {
    ghost var why := Admit(s.mem, id, w.hash(presented), g.now, g.version, g.frozenAtEntry, g.frozenAtClaim).0;
    r := l.Execute(presented, id, g);
    steps := ExecuteSteps(tid, id, presented, g, why == Admitted);
    end := ExecuteIsItsSteps(w, s, tid, id, presented, g);
  }

  // ----- Decide -----

  method DecideRefines(l: L.Lifecycle, w: World, ghost s: Sys, id: Id, kind: Option<Decision>, who: string,
                       now: Instant, appended: bool)
    returns (r: DecideResult, ghost end: Sys)
    requires l.Valid() && Matches(l, w, s) && s.up && now == s.now
    modifies l`requests, l`log
    ensures l.Valid() && After(Next(w), s, [] + [Step.Decide(id, kind, who, appended)]) == Some(end) && Matches(l, w, end)
    ensures r == DecideEffect(s.mem, id, kind, who, now, appended).0
  {
    r := l.Decide(id, kind, who, now, appended);
    end := DecideDo(s, id, kind, who, appended);
    ThenOnce(Next(w), s, [], s, Step.Decide(id, kind, who, appended), end);
  }
}
