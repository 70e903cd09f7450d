// What holds over every run of the approval lifecycle: exactly-once execution of the bound
// intent, and exactly what a restart preserves (daemon/internal/approval/lifecycle.go).
module ApprovalSafety {
  import opened Wrappers
  import opened Intents
  import opened Approval
  import opened ApprovalRuns
  import opened ApprovalInvariant
  import opened Traces
  import Budget

  // ----- Building runs -----

  function Next(w: World): (Sys, Step) -> Option<Sys> {
    (s, t) => if Enabled(w, s, t) then Some(Do(w, s, t)) else None
  }

  lemma RunOfTrace(w: World, states: seq<Sys>, steps: seq<Step>)
    requires |states| == |steps| + 1 && Initial(states[0])
    requires forall k :: 0 <= k < |steps| ==> Next(w)(states[k], steps[k]) == Some(states[k + 1])
    ensures Run(w, states, steps)
  {
    forall k | 0 <= k < |steps| ensures Enabled(w, states[k], steps[k]) && states[k + 1] == Do(w, states[k], steps[k]) {
      assert Next(w)(states[k], steps[k]) == Some(states[k + 1]);
    }
  }

  // A list of steps that leads somewhere from an initial state is a run there.
  lemma RunTo(w: World, s: Sys, steps: seq<Step>, end: Sys) returns (states: seq<Sys>)
    requires Initial(s) && After(Next(w), s, steps) == Some(end)
    ensures Run(w, states, steps) && states[|steps|] == end
  {
    TraceSteps(Next(w), s, steps);
    states := Trace(Next(w), s, steps);
    RunOfTrace(w, states, steps);
  }

  // ----- Exactly once -----

  predicate Holds(s: Sys, c: Claim) {
    c in s.started || exists tid :: tid in s.execs && s.execs[tid].claim == c
  }

  // Every gate passes for this claim in this state.
  predicate Passes(s: Sys, c: Claim) {
    && s.up && Executable(s.mem, c.id, s.now, s.version)
    && !Covered(s.frozen, c.presented) && c == ClaimOf(s, c.id, c.presented)
  }

  ghost predicate Witnessed(states: seq<Sys>, c: Claim) {
    exists j :: 0 <= j < |states| && Passes(states[j], c)
  }

  lemma WorldFrame(s: Sys, o: WorldStep)
    requires WorldEnabled(s, o)
    ensures var s' := WorldDo(s, o); s'.started == s.started && (s'.execs == s.execs || s'.execs == map[])
  {
  }

  lemma IntakeFrame(w: World, s: Sys, n: string, i: IntakeStep)
    requires IntakeEnabled(s, n, i)
    ensures var s' := IntakeDo(w, s, n, i); s'.started == s.started && s'.execs == s.execs
  {
  }

  lemma ClaimsFrame(w: World, s: Sys, t: Step)
    requires Enabled(w, s, t) && !t.Exec?
    ensures var s' := Do(w, s, t); s'.started == s.started && (s'.execs == s.execs || s'.execs == map[])
  {
    match t {
      case Outside(o) => WorldFrame(s, o);
      case Intake(n, i) => IntakeFrame(w, s, n, i);
      case Decide(_, _, _, _) =>
      case Sweep(tid, y) => SweepFacts(s, tid, y);
    }
  }

  lemma AdmittedPasses(w: World, s: Sys, id: Id, presented: Intent, frozenAtEntry: bool)
    requires Collisionless(w) && s.up && (id in s.mem ==> s.mem[id].hash == w.hash(s.mem[id].intent))
    requires AdmitNow(w, s, id, presented, frozenAtEntry).0 == Admitted
    ensures Passes(s, ClaimOf(s, id, presented))
  {
    assert w.hash(presented) == w.hash(s.mem[id].intent);
  }

  lemma ClaimsOfExec(w: World, s: Sys, tid: nat, x: ExecStep, c: Claim)
    requires Collisionless(w) && ExecEnabled(s, tid, x)
    requires forall id :: id in s.mem ==> s.mem[id].hash == w.hash(s.mem[id].intent)
    requires Holds(ExecDo(w, s, tid, x), c)
    ensures Holds(s, c) || Passes(s, c)
  {
    var s' := ExecDo(w, s, tid, x);
    if c !in s'.started {
      var u :| u in s'.execs && s'.execs[u].claim == c;
      assert u in s.execs ==> s.execs[u].claim == c || Holds(s, c) || u == tid;
      if x.Gate? && u == tid && u !in s.execs {
        AdmittedPasses(w, s, x.id, x.presented, x.frozenAtEntry);
      }
    } else if c !in s.started {
      assert s.execs[tid].claim == c;
    }
  }

  lemma ClaimsOfStep(w: World, s: Sys, t: Step, c: Claim)
    requires Collisionless(w) && Enabled(w, s, t) && Holds(Do(w, s, t), c)
    requires HashesHold(w, s)
    ensures Holds(s, c) || Passes(s, c)
  {
    if t.Exec? {
      ClaimsOfExec(w, s, t.tid, t.x, c);
    } else {
      ClaimsFrame(w, s, t);
    }
  }

  predicate HashesHold(w: World, s: Sys) {
    s.up ==> forall id :: id in s.mem ==> s.mem[id].hash == w.hash(s.mem[id].intent)
  }

  lemma WitnessedAlready(states: seq<Sys>, n: nat, c: Claim)
    requires n < |states| && Witnessed(states[..n], c)
    ensures Witnessed(states, c)
  {
    var j :| 0 <= j < n && Passes(states[..n][j], c);
    assert states[j] == states[..n][j];
  }

  lemma {:induction false} ClaimsWitnessed(w: World, states: seq<Sys>, steps: seq<Step>, c: Claim)
    requires Collisionless(w) && Run(w, states, steps) && Holds(states[|steps|], c)
    requires forall k :: 0 <= k < |states| ==> HashesHold(w, states[k])
    ensures Witnessed(states, c)
  {
    if steps != [] {
      var n := |steps| - 1;
      assert HashesHold(w, states[n]);
      ClaimsOfStep(w, states[n], steps[n], c);
      if Holds(states[n], c) {
        assert states[..n + 1][n] == states[n];
        ClaimsWitnessed(w, states[..n + 1], steps[..n], c);
        WitnessedAlready(states, n + 1, c);
      }
    }
  }

  lemma HashesBound(w: World, s: Sys)
    requires Inv(w, s) && s.up
    ensures forall id :: id in s.mem ==> s.mem[id].hash == w.hash(s.mem[id].intent)
  {
  }

  // Over any run, with any number of crashes: each request's executor starts at most once, with
  // the very intent bound at intake, after its claim is durable and after passing every gate in
  // one state of the run; the log never holds a second claim on any request.
  lemma ExactlyOnce(w: World, states: seq<Sys>, steps: seq<Step>)
    requires Collisionless(w) && Run(w, states, steps)
    ensures var s := states[|steps|];
            && (forall j, k :: 0 <= j < k < |s.started| ==> s.started[j].id != s.started[k].id)
            && (forall k :: 0 <= k < |s.started| ==>
                  var c := s.started[k];
                  && Gated(w, c) && Witnessed(states, c)
                  && ClaimCount(s.log, c.id) == 1
                  && c.id in Replay(s.log) && c.presented == Replay(s.log)[c.id].intent)
            && (forall id :: ClaimCount(s.log, id) <= 1)
  {
    RunInv(w, states, steps);
    var s := states[|steps|];
    forall k | 0 <= k < |states| ensures HashesHold(w, states[k]) {
      if states[k].up { HashesBound(w, states[k]); }
    }
    forall k | 0 <= k < |s.started| ensures Witnessed(states, s.started[k]) {
      assert s.started[k] in s.started;
      ClaimsWitnessed(w, states, steps, s.started[k]);
    }
    StartedFacts(w, s);
  }

  lemma StartedFacts(w: World, s: Sys)
    requires Collisionless(w) && Inv(w, s)
    ensures forall j, k :: 0 <= j < k < |s.started| ==> s.started[j].id != s.started[k].id
    ensures forall k :: 0 <= k < |s.started| ==>
              var c := s.started[k];
              && Gated(w, c) && ClaimCount(s.log, c.id) == 1
              && c.id in Replay(s.log) && c.presented == Replay(s.log)[c.id].intent
    ensures forall id :: ClaimCount(s.log, id) <= 1
  {
    forall k | 0 <= k < |s.started|
      ensures s.started[k].id in Replay(s.log) && s.started[k].presented == Replay(s.log)[s.started[k].id].intent
    {
      var c := s.started[k];
      assert ClaimedIn(Replay(s.log), c.id) && Gated(w, c);
      assert Sound(w, s.nonces, c.id, Replay(s.log)[c.id]);
    }
  }

  // ----- Where events come from -----

  // The decision applies: it is named, and finds the request pending within its window.
  predicate Applies(s: Sys, t: Step, id: Id, kind: Decision, who: string) {
    && t.Decide? && t.id == id && t.kind == Some(kind) && t.who == who && who != ""
    && s.up && id in s.mem && s.mem[id].state == Pending && s.now < s.mem[id].expiresAt
  }

  // Where the kinds of event that matter here come from.
  ghost predicate Origin(s: Sys, t: Step, e: Event) {
    && (e.Executing? ==> exists c :: Holds(s, c) && c.id == e.id)
    && (e.Reserved? ==>
          && t.Intake? && t.i.Reserve? && t.nonce in s.submits
          && e == Reserved(s.submits[t.nonce].id, WholeSeconds(s.submits[t.nonce].req.intent.expiresAt)))
    && (e.Requested? ==>
          && t.Intake? && t.nonce in s.submits && e == RequestEvent(s.submits[t.nonce]) && s.up
          && s.submits[t.nonce].stage != Logged)
    && (e.Decided? ==> Applies(s, t, e.id, e.kind, e.who) && t.appended)
    && (e.Lapsed? ==> s.up && e.id in s.mem && s.mem[e.id].state == Pending)
  }

  lemma LogFacts(w: World, s: Sys, t: Step)
    requires Enabled(w, s, t)
    ensures var log := Do(w, s, t).log; log == s.log || exists e :: log == s.log + [e] && Origin(s, t, e)
  {
    match t {
      case Outside(o) => OutsideLogs(s, t);
      case Intake(n, i) =>
        if i.LogRequest? { assert Origin(s, t, RequestEvent(s.submits[n])); }
      case Decide(id, kind, who, appended) => DecideLogs(s, t);
      case Exec(tid, x) =>
        if x.LogClaim? {
          assert Holds(s, s.execs[tid].claim);
          assert Origin(s, t, Executing(s.execs[tid].claim.id));
        }
      case Sweep(tid, y) =>
        SweepFacts(s, tid, y);
        assert forall id :: Origin(s, t, HoldClosed(id));
    }
  }

  lemma OutsideLogs(s: Sys, t: Step)
    requires t.Outside? && WorldEnabled(s, t.o)
    ensures var log := WorldDo(s, t.o).log; log == s.log || exists e :: log == s.log + [e] && Origin(s, t, e)
  {
    if t.o.Audit? { assert Origin(s, t, t.o.e); }
    if t.o.CloseHold? { assert Origin(s, t, HoldClosed(t.o.id)); }
  }

  lemma DecideLogs(s: Sys, t: Step)
    requires t.Decide? && s.up
    ensures var log := DecideDo(s, t.id, t.kind, t.who, t.appended).log;
            log == s.log || exists e :: log == s.log + [e] && Origin(s, t, e)
  {
    var (_, _, events) := DecideEffect(s.mem, t.id, t.kind, t.who, s.now, t.appended);
    if events == [] {
      assert s.log + events == s.log;
    } else {
      assert Origin(s, t, events[0]);
    }
  }

  // ----- Write-ahead order -----

  // A payment's hold is in the log before its request, and before its claim.
  predicate HeldFirst(log: seq<Event>) {
    log == [] ||
    var before, e := log[..|log| - 1], log[|log| - 1];
    && HeldFirst(before)
    && (e.Requested? ==> e.intent.kind != ADVANCE ==> HoldLogged(before, e.id))
    && (e.Executing? ==>
          e.id in Replay(before) && (Replay(before)[e.id].intent.kind != ADVANCE ==> HoldLogged(before, e.id)))
  }

  lemma HeldStep(w: World, nonces: set<string>, log: seq<Event>, e: Event)
    requires HeldFirst(log) && LogInv(w, nonces, log + [e], Replay(log + [e]))
    requires e.Requested? ==> e.id != ""
    ensures HeldFirst(log + [e])
  {
    LogAppend(log, e);
    assert (log + [e])[..|log|] == log;
    var rep := Replay(log + [e]);
    if e.Requested? {
      assert e.id in rep && rep[e.id].intent == e.intent;
    }
    if e.Executing? {
      assert ClaimCount(log + [e], e.id) == 1;
      assert e.id in rep;
    }
  }

  lemma SubmissionsNamed(w: World, s: Sys)
    requires Inv(w, s)
    ensures forall n :: n in s.submits ==> s.submits[n].id != ""
  {
    forall n | n in s.submits ensures s.submits[n].id != "" {
      assert SubmissionOk(w, s.nonces, Replay(s.log), s.mem, n, s.submits[n]);
    }
  }

  lemma NamedRequests(s: Sys, t: Step, e: Event)
    requires Origin(s, t, e) && e.Requested? && forall n :: n in s.submits ==> s.submits[n].id != ""
    ensures e.id != ""
  {
  }

  // The crash-window law: over any run, budget.reserved is durable before approval.requested, and
  // so before payment.executing, for every payment.
  lemma {:induction false} HoldsComeFirst(w: World, states: seq<Sys>, steps: seq<Step>)
    requires Collisionless(w) && Run(w, states, steps)
    ensures HeldFirst(states[|steps|].log)
  {
    if steps != [] {
      var n := |steps| - 1;
      RunInv(w, states, steps);
      HoldsComeFirst(w, states[..n + 1], steps[..n]);
      assert states[..n + 1][n] == states[n];
      LogFacts(w, states[n], steps[n]);
      if states[n + 1].log != states[n].log {
        var e :| states[n + 1].log == states[n].log + [e] && Origin(states[n], steps[n], e);
        SubmissionsNamed(w, states[n]);
        if e.Requested? { NamedRequests(states[n], steps[n], e); }
        HeldStep(w, states[n + 1].nonces, states[n].log, e);
      }
    }
  }

  // ----- What a restart preserves -----

  // The state after a crash, some time, and a boot.
  function Rebooted(s: Sys, downtime: nat): Sys
    requires s.up
  {
    WorldDo(WorldDo(WorldDo(s, Crash), Tick(downtime)), Boot)
  }

  // Approved in memory, the approval durable and the claim not.
  predicate ApprovedUnclaimed(s: Sys, id: Id) {
    id in s.mem && s.mem[id].state == Approved && ApprovalLogged(s.log, id) && ClaimCount(s.log, id) == 0
  }

  // A logged, auto-approved request whose Submit had not yet made it visible.
  predicate AboutToAppear(s: Sys, id: Id) {
    exists n :: n in s.submits && s.submits[n].stage == Logged && s.submits[n].id == id
                && s.submits[n].req.state == Approved
  }

  // At any crash point, a request is executable after the restart exactly when it carries a
  // durable approval and no durable claim, was approved in the lost memory or about to appear
  // there, and is within its window and policy version. No such request had started.
  lemma ReplayExact(w: World, states: seq<Sys>, steps: seq<Step>, downtime: nat, id: Id)
    requires Collisionless(w) && Run(w, states, steps) && states[|steps|].up
    ensures var s := states[|steps|];
            var r := Rebooted(s, downtime);
            && (Executable(r.mem, id, r.now, r.version) <==>
                && (ApprovedUnclaimed(s, id) || AboutToAppear(s, id))
                && id in r.mem && r.now < r.mem[id].expiresAt && r.mem[id].intent.policyVersion == r.version)
            && (id in s.mem ==> id in r.mem && r.mem[id].intent == s.mem[id].intent && r.mem[id].hash == s.mem[id].hash)
            && (Executable(r.mem, id, r.now, r.version) ==> !Started(s.started, id))
  {
    RebootFacts(states[|steps|], downtime);
    RunInv(w, states, steps);
    RecoveredFacts(w, states[|steps|], id, states[|steps|].now + downtime);
  }

  lemma RebootFacts(s: Sys, downtime: nat)
    requires s.up
    ensures var r := Rebooted(s, downtime);
            r.mem == Replay(s.log) && r.now == s.now + downtime && r.version == s.version
  {
  }

  lemma RecoveredFacts(w: World, s: Sys, id: Id, now: Instant)
    requires Inv(w, s) && s.up && s.now <= now
    ensures var rep := Replay(s.log);
            && (Executable(rep, id, now, s.version) <==>
                && (ApprovedUnclaimed(s, id) || AboutToAppear(s, id))
                && id in rep && now < rep[id].expiresAt && rep[id].intent.policyVersion == s.version)
            && (id in s.mem ==> id in rep && rep[id].intent == s.mem[id].intent && rep[id].hash == s.mem[id].hash)
            && (Executable(rep, id, now, s.version) ==> !Started(s.started, id))
  {
    var rep := Replay(s.log);
    if id in rep && id !in s.mem {
      assert Accounted(s.submits, s.mem, id, rep[id]);
      var n := rep[id].intent.nonce;
      assert SubmissionOk(w, s.nonces, rep, s.mem, n, s.submits[n]);
    }
    if AboutToAppear(s, id) {
      var n :| n in s.submits && s.submits[n].stage == Logged && s.submits[n].id == id
               && s.submits[n].req.state == Approved;
      assert SubmissionOk(w, s.nonces, rep, s.mem, n, s.submits[n]);
    }
  }

  // The second disjunct is needed: some run reaches a crash point at which a request is
  // executable after the restart though the lost memory had never heard of it.
  lemma RestartRevealsUnseenRequest(w: World, s: Sys, i: Intent)
    requires Collisionless(w) && Initial(s) && Budget.Openable(i) && i.policyVersion == s.version
    requires s.now < i.expiresAt && !Covered(s.frozen, i)
    ensures exists states: seq<Sys>, steps ::
              && Run(w, states, steps) && states[|steps|].up && w.ident(i) !in states[|steps|].mem
              && var r := Rebooted(states[|steps|], 0); Executable(r.mem, w.ident(i), r.now, r.version)
  {
    var next, boot := Next(w), s.(up := true);
    assert next(s, Outside(Boot)) == Some(boot);
    ThenOnce(next, s, [], s, Outside(Boot), boot);
    LoggedIntake(w, boot, i);
    Then(next, s, [] + [Outside(Boot)], boot, IntakeSteps(i));
    var states := RunTo(w, s, [] + [Outside(Boot)] + IntakeSteps(i), AfterIntake(w, boot, i));
    UnseenIsExecutable(w, AfterIntake(w, boot, i), i);
  }

  // A payment auto-approved, held and logged, but not yet visible.
  function IntakeSteps(i: Intent): seq<Step> {
    [] + [Intake(i.nonce, Begin(i, true))] + [Intake(i.nonce, IntakeStep.Reserve)] + [Intake(i.nonce, LogRequest)]
  }

  function HeldEntry(i: Intent): Entry {
    Entry(true, HeldExpiry(i.expiresAt), false, false)
  }

  function AfterIntake(w: World, s: Sys, i: Intent): Sys {
    s.(nonces := s.nonces + {i.nonce}, log := IntakeTrail(w, i), ledger := map[w.ident(i) := HeldEntry(i)],
       submits := map[i.nonce := LoggedAuto(w, i)])
  }

  function LoggedAuto(w: World, i: Intent): Submission {
    Submission(w.ident(i), OpenRequest(w.hash(i), i, true), Logged)
  }

  function IntakeTrail(w: World, i: Intent): seq<Event> {
    [Reserved(w.ident(i), WholeSeconds(i.expiresAt))] + [Requested(w.ident(i), w.hash(i), i, Approved, "policy-engine")]
  }

  lemma LoggedIntake(w: World, s: Sys, i: Intent)
    requires s.up && s.submits == map[] && i.nonce !in s.nonces && s.log == [] && s.ledger == map[]
    requires Budget.Openable(i) && i.policyVersion == s.version && !Covered(s.frozen, i)
    ensures After(Next(w), s, IntakeSteps(i)) == Some(AfterIntake(w, s, i))
  {
    var a, b, c := Intake(i.nonce, Begin(i, true)), Intake(i.nonce, IntakeStep.Reserve), Intake(i.nonce, LogRequest);
    var next, sub := Next(w), LoggedAuto(w, i);
    var begun := s.(nonces := s.nonces + {i.nonce}, submits := map[i.nonce := sub.(stage := NonceClaimed)]);
    var held := begun.(log := [Reserved(w.ident(i), WholeSeconds(i.expiresAt))],
                       ledger := map[w.ident(i) := HeldEntry(i)], submits := map[i.nonce := sub.(stage := Held)]);
    assert i.(policyVersion := s.version) == i;
    assert next(s, a) == Some(begun);
    ThenOnce(next, s, [], s, a, begun);
    assert begun.submits[i.nonce := sub.(stage := Held)] == held.submits;
    assert begun.ledger[w.ident(i) := HeldEntry(i)] == held.ledger;
    assert begun.log + [Reserved(w.ident(i), WholeSeconds(i.expiresAt))] == held.log;
    assert next(begun, b) == Some(held);
    ThenOnce(next, s, [] + [a], begun, b, held);
    assert held.submits[i.nonce := sub] == map[i.nonce := sub];
    assert next(held, c) == Some(AfterIntake(w, s, i));
    ThenOnce(next, s, [] + [a] + [b], held, c, AfterIntake(w, s, i));
  }

  lemma UnseenIsExecutable(w: World, s: Sys, i: Intent)
    requires Collisionless(w) && s.up && s.now < i.expiresAt && i.policyVersion == s.version
    requires s.log == IntakeTrail(w, i)
    ensures var r := Rebooted(s, 0); Executable(r.mem, w.ident(i), r.now, r.version)
  {
    var hold := Reserved(w.ident(i), WholeSeconds(i.expiresAt));
    var request := Requested(w.ident(i), w.hash(i), i, Approved, "policy-engine");
    assert [] + [hold] == [hold];
    LogAppend([], hold);
    LogAppend([hold], request);
  }
}
