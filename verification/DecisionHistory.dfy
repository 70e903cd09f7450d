// Where a request's standing comes from, over whole runs: an approval is the policy engine's at
// intake or a named decider's in time, a decision stands exactly as long as memory or the log holds
// it, and an alternative may be bought exactly where one was asked for
// (daemon/internal/approval/lifecycle.go).
module DecisionHistory {
  import opened Wrappers
  import opened Intents
  import opened Approval
  import opened ApprovalRuns
  import opened ApprovalInvariant
  import opened ApprovalSafety
  import opened Traces
  import Budget

  predicate BeginsAuto(w: World, s: Sys, t: Step, id: Id) {
    t.Intake? && t.i.Begin? && t.i.auto && w.ident(t.i.presented.(policyVersion := s.version)) == id
  }

  // The three decided states by what brings them about.
  predicate Causes(w: World, s: Sys, t: Step, id: Id, state: State, who: string) {
    || (state == Approved && BeginsAuto(w, s, t, id) && who == "policy-engine")
    || (state == Approved && Applies(s, t, id, Approve, who))
    || (state == Rejected && Applies(s, t, id, Reject, who))
    || (state == AlternativeRequested && Applies(s, t, id, RequestAlternative, who))
  }

  predicate IsDecided(state: State) {
    state == Approved || state == Rejected || state == AlternativeRequested
  }

  predicate Stands(m: Requests, id: Id, state: State, who: string) {
    id in m && m[id].state == state && m[id].decidedBy == who
  }

  predicate SubmittedAs(sub: Submission, id: Id, state: State, who: string) {
    sub.id == id && sub.req.state == state && sub.req.decidedBy == who
  }

  predicate Submitted(s: Sys, id: Id, state: State, who: string) {
    exists n :: n in s.submits && SubmittedAs(s.submits[n], id, state, who)
  }

  // Some place holds the request so: memory, the log or a submission under way.
  predicate Known(s: Sys, id: Id, state: State, who: string) {
    Stands(s.mem, id, state, who) || Stands(Replay(s.log), id, state, who) || Submitted(s, id, state, who)
  }

  // ----- One step -----

  // Which events make a replayed request stand so.
  predicate Makes(e: Event, id: Id, state: State, who: string) {
    || (e.Requested? && e.id == id && e.born == state && e.who == who)
    || (state == Approved && e == Decided(id, Approve, who))
    || (state == Rejected && e == Decided(id, Reject, who))
    || (state == AlternativeRequested && e == Decided(id, RequestAlternative, who))
  }

  lemma ReplayMakes(m: Requests, e: Event, id: Id, state: State, who: string)
    requires IsDecided(state) && Stands(Apply(m, e), id, state, who)
    ensures Stands(m, id, state, who) || Makes(e, id, state, who)
  {
  }

  lemma MakesHere(w: World, s: Sys, t: Step, e: Event, id: Id, state: State, who: string)
    requires Inv(w, s) && IsDecided(state) && Origin(s, t, e) && Makes(e, id, state, who)
    ensures Submitted(s, id, state, who) || Causes(w, s, t, id, state, who)
  {
    if e.Requested? {
      var sub := s.submits[t.nonce];
      assert SubmissionOk(w, s.nonces, Replay(s.log), s.mem, t.nonce, sub);
      assert SubmittedAs(sub, id, state, who);
    }
  }

  lemma LogCause(w: World, s: Sys, t: Step, log: seq<Event>, id: Id, state: State, who: string)
    requires log == s.log || exists e :: log == s.log + [e] && Origin(s, t, e)
    requires Inv(w, s) && IsDecided(state) && Stands(Replay(log), id, state, who)
    ensures Known(s, id, state, who) || Causes(w, s, t, id, state, who)
  {
    if log != s.log {
      var e :| log == s.log + [e] && Origin(s, t, e);
      LogAppend(s.log, e);
      ReplayMakes(Replay(s.log), e, id, state, who);
      if Makes(e, id, state, who) { MakesHere(w, s, t, e, id, state, who); }
    }
  }

  lemma IntakeSubmits(w: World, s: Sys, n: string, i: IntakeStep, x: string)
    requires IntakeEnabled(s, n, i) && x in IntakeDo(w, s, n, i).submits
    ensures var q := IntakeDo(w, s, n, i).submits[x];
            || (x in s.submits && q.id == s.submits[x].id && q.req == s.submits[x].req)
            || (i.Begin? && q == Beginning(w, s.version, i.presented, i.auto))
  {
  }

  lemma SubmitCause(w: World, s: Sys, n: string, i: IntakeStep, id: Id, state: State, who: string)
    requires IntakeEnabled(s, n, i) && IsDecided(state)
    requires exists x :: x in IntakeDo(w, s, n, i).submits && SubmittedAs(IntakeDo(w, s, n, i).submits[x], id, state, who)
    ensures Submitted(s, id, state, who) || Causes(w, s, Intake(n, i), id, state, who)
  {
    var x :| x in IntakeDo(w, s, n, i).submits && SubmittedAs(IntakeDo(w, s, n, i).submits[x], id, state, who);
    IntakeSubmits(w, s, n, i, x);
    if i.Begin? {
      var intent := i.presented.(policyVersion := s.version);
      OpenedStanding(w.hash(intent), intent, i.auto);
    }
    assert x in s.submits ==> SubmittedAs(s.submits[x], id, state, who) || i.Begin?;
  }

  lemma DecideCause(m: Requests, id: Id, kind: Option<Decision>, decider: string, now: Instant, appended: bool,
                    x: Id, state: State, who: string)
    requires IsDecided(state) && Stands(DecideEffect(m, id, kind, decider, now, appended).1, x, state, who)
    ensures Stands(m, x, state, who) ||
            (&& x == id && who == decider != "" && id in m && m[id].state == Pending && now < m[id].expiresAt && kind.Some?
             && (state == Approved <==> kind.value == Approve) && (state == Rejected <==> kind.value == Reject))
  {
  }

  lemma ExecCause(w: World, s: Sys, tid: nat, x: ExecStep, id: Id, state: State, who: string)
    requires ExecEnabled(s, tid, x) && IsDecided(state) && Stands(ExecDo(w, s, tid, x).mem, id, state, who)
    ensures Stands(s.mem, id, state, who)
  {
  }

  lemma IntakeCause(w: World, s: Sys, n: string, i: IntakeStep, id: Id, state: State, who: string)
    requires IntakeEnabled(s, n, i) && Stands(IntakeDo(w, s, n, i).mem, id, state, who)
    ensures Stands(s.mem, id, state, who) || Submitted(s, id, state, who)
  {
    if i.Publish? { assert SubmittedAs(s.submits[n], s.submits[n].id, s.submits[n].req.state, s.submits[n].req.decidedBy); }
  }

  lemma WorldCause(s: Sys, o: WorldStep, id: Id, state: State, who: string)
    requires WorldEnabled(s, o) && Stands(WorldDo(s, o).mem, id, state, who)
    ensures Stands(s.mem, id, state, who) || Stands(Replay(s.log), id, state, who)
  {
  }

  lemma MemoryCause(w: World, s: Sys, t: Step, id: Id, state: State, who: string)
    requires Enabled(w, s, t) && IsDecided(state) && Stands(Do(w, s, t).mem, id, state, who)
    ensures Known(s, id, state, who) || Causes(w, s, t, id, state, who)
  {
    match t {
      case Outside(o) => WorldCause(s, o, id, state, who);
      case Intake(n, i) => IntakeCause(w, s, n, i, id, state, who);
      case Decide(x, kind, decider, appended) => DecideCause(s.mem, x, kind, decider, s.now, appended, id, state, who);
      case Exec(tid, x) => ExecCause(w, s, tid, x, id, state, who);
      case Sweep(tid, y) => SweepFacts(s, tid, y);
    }
  }

  // Only intake opens a submission.
  lemma SubmitsFrame(w: World, s: Sys, t: Step)
    requires Enabled(w, s, t) && !t.Intake?
    ensures Do(w, s, t).submits == s.submits || Do(w, s, t).submits == map[]
  {
    if t.Sweep? { SweepFacts(s, t.tid, t.y); }
  }

  lemma StepCause(w: World, s: Sys, t: Step, s': Sys, id: Id, state: State, who: string)
    requires Inv(w, s) && Enabled(w, s, t) && s' == Do(w, s, t) && IsDecided(state) && Known(s', id, state, who)
    ensures Known(s, id, state, who) || Causes(w, s, t, id, state, who)
  {
    if Stands(s'.mem, id, state, who) {
      MemoryCause(w, s, t, id, state, who);
    } else if Stands(Replay(s'.log), id, state, who) {
      LogFacts(w, s, t);
      LogCause(w, s, t, s'.log, id, state, who);
    } else if t.Intake? {
      SubmitCause(w, s, t.nonce, t.i, id, state, who);
    } else {
      SubmitsFrame(w, s, t);
    }
  }

  // ----- Whole runs -----

  predicate CausedBefore(w: World, states: seq<Sys>, steps: seq<Step>, k: nat, id: Id, state: State, who: string)
    requires k <= |steps| < |states|
  {
    exists j :: 0 <= j < k && Causes(w, states[j], steps[j], id, state, who)
  }

  // Every decided request was decided: by the engine at intake, or by the decider it names.
  lemma {:induction false} DecidedIsCaused(w: World, states: seq<Sys>, steps: seq<Step>, k: nat, id: Id, state: State, who: string)
    requires Collisionless(w) && Run(w, states, steps) && k <= |steps|
    requires IsDecided(state) && Known(states[k], id, state, who)
    ensures CausedBefore(w, states, steps, k, id, state, who)
    decreases k
  {
    if k > 0 {
      RunInv(w, states, steps);
      StepCause(w, states[k - 1], steps[k - 1], states[k], id, state, who);
      if Known(states[k - 1], id, state, who) {
        DecidedIsCaused(w, states, steps, k - 1, id, state, who);
      }
    }
  }

  predicate AppliedBefore(states: seq<Sys>, steps: seq<Step>, k: nat, id: Id, kind: Decision, who: string)
    requires k <= |steps| < |states|
  {
    exists j :: 0 <= j < k && Applies(states[j], steps[j], id, kind, who)
  }

  predicate LoggedBefore(states: seq<Sys>, steps: seq<Step>, k: nat, id: Id, kind: Decision, who: string)
    requires k <= |steps| < |states|
  {
    exists j :: 0 <= j < k && Applies(states[j], steps[j], id, kind, who) && steps[j].appended
  }

  predicate AutoBefore(w: World, states: seq<Sys>, steps: seq<Step>, k: nat, id: Id)
    requires k <= |steps| < |states|
  {
    exists j :: 0 <= j < k && BeginsAuto(w, states[j], steps[j], id)
  }

  lemma LogGrows(w: World, s: Sys, t: Step, e: Event)
    requires Enabled(w, s, t)
    ensures e in s.log ==> e in Do(w, s, t).log
    ensures e in Do(w, s, t).log && e !in s.log ==> Origin(s, t, e)
  {
    LogFacts(w, s, t);
  }

  lemma AppliedLogs(s: Sys, t: Step, id: Id, kind: Decision, who: string)
    requires Applies(s, t, id, kind, who) && t.appended
    ensures Event.Decided(id, kind, who) in DecideDo(s, t.id, t.kind, t.who, t.appended).log
  {
  }

  lemma LogsExactly(w: World, s: Sys, t: Step, id: Id, kind: Decision, who: string)
    requires Enabled(w, s, t)
    ensures var e := Event.Decided(id, kind, who);
            e in Do(w, s, t).log <==> e in s.log || (Applies(s, t, id, kind, who) && t.appended)
  {
    LogGrows(w, s, t, Event.Decided(id, kind, who));
    if Applies(s, t, id, kind, who) && t.appended { AppliedLogs(s, t, id, kind, who); }
  }

  // The log has a decision exactly where one applied and its append succeeded.
  lemma {:induction false} LoggedExactly(w: World, states: seq<Sys>, steps: seq<Step>, k: nat, id: Id, kind: Decision, who: string)
    requires Run(w, states, steps) && k <= |steps|
    ensures Event.Decided(id, kind, who) in states[k].log <==> LoggedBefore(states, steps, k, id, kind, who)
    decreases k
  {
    if k > 0 {
      LoggedExactly(w, states, steps, k - 1, id, kind, who);
      LogsExactly(w, states[k - 1], steps[k - 1], id, kind, who);
    }
  }

  // Every execution that ever starts was approved: by the policy engine, for an intent begun as
  // auto-approved, or by a named decider who found it pending within its window. That approval is
  // in the log exactly if the append of one such decision succeeded.
  lemma StartsAreApproved(w: World, states: seq<Sys>, steps: seq<Step>, c: Claim)
    requires Collisionless(w) && Run(w, states, steps) && c in states[|steps|].started
    ensures (AutoBefore(w, states, steps, |steps|, c.id) && c.decidedBy == "policy-engine")
            || AppliedBefore(states, steps, |steps|, c.id, Approve, c.decidedBy)
    ensures Event.Decided(c.id, Approve, c.decidedBy) in states[|steps|].log
            <==> LoggedBefore(states, steps, |steps|, c.id, Approve, c.decidedBy)
  {
    LoggedExactly(w, states, steps, |steps|, c.id, Approve, c.decidedBy);
    StartWitnessed(w, states, steps, c);
    var j :| 0 <= j < |states| && Passes(states[j], c);
    assert Stands(states[j].mem, c.id, Approved, c.decidedBy);
    DecidedIsCaused(w, states, steps, j, c.id, Approved, c.decidedBy);
    var i :| 0 <= i < j && Causes(w, states[i], steps[i], c.id, Approved, c.decidedBy);
  }

  lemma StartWitnessed(w: World, states: seq<Sys>, steps: seq<Step>, c: Claim)
    requires Collisionless(w) && Run(w, states, steps) && c in states[|steps|].started
    ensures Witnessed(states, c)
  {
    ExactlyOnce(w, states, steps);
  }

  // ----- How long a refusal stands -----

  // The two refusals, which nothing but a loss undoes.
  predicate IsRefusal(state: State) {
    state == Rejected || state == AlternativeRequested
  }

  predicate In(m: Requests, id: Id, state: State) {
    id in m && m[id].state == state
  }

  predicate Crashes(t: Step) {
    t == Outside(Crash)
  }

  lemma DecideStays(m: Requests, id: Id, kind: Option<Decision>, who: string, now: Instant, appended: bool, x: Id, state: State)
    requires In(m, x, state) && IsRefusal(state)
    ensures In(DecideEffect(m, id, kind, who, now, appended).1, x, state)
  {
  }

  lemma ExecStays(w: World, s: Sys, tid: nat, x: ExecStep, id: Id, state: State)
    requires ExecEnabled(s, tid, x) && In(s.mem, id, state) && IsRefusal(state)
    ensures In(ExecDo(w, s, tid, x).mem, id, state)
  {
  }

  // A submission is of a request nobody sees yet, pending or approved.
  predicate Unseen(s: Sys, sub: Submission) {
    && sub.id !in s.mem && (sub.stage != Logged ==> sub.id !in Replay(s.log))
    && (sub.req.born == Pending || sub.req.born == Approved) && sub.req.state == sub.req.born
  }

  predicate AllUnseen(s: Sys) {
    forall n :: n in s.submits ==> Unseen(s, s.submits[n])
  }

  lemma SubmissionsUnseen(w: World, s: Sys)
    requires Inv(w, s)
    ensures AllUnseen(s)
  {
    forall n | n in s.submits ensures Unseen(s, s.submits[n]) {
      assert SubmissionOk(w, s.nonces, Replay(s.log), s.mem, n, s.submits[n]);
    }
  }

  lemma IntakeStays(w: World, s: Sys, n: string, i: IntakeStep, id: Id, state: State)
    requires AllUnseen(s) && IntakeEnabled(s, n, i) && In(s.mem, id, state)
    ensures In(IntakeDo(w, s, n, i).mem, id, state)
  {
    if i.Publish? { assert Unseen(s, s.submits[n]); }
  }

  lemma WorldStays(s: Sys, o: WorldStep, id: Id, state: State)
    requires WorldEnabled(s, o) && s.up && In(s.mem, id, state) && !o.Crash?
    ensures In(WorldDo(s, o).mem, id, state)
  {
  }

  lemma MemoryStays(w: World, s: Sys, t: Step, id: Id, state: State)
    requires AllUnseen(s) && Enabled(w, s, t) && s.up && In(s.mem, id, state) && IsRefusal(state) && !Crashes(t)
    ensures In(Do(w, s, t).mem, id, state)
  {
    match t {
      case Sweep(tid, y) => SweepFacts(s, tid, y);
      case Intake(n, i) => IntakeStays(w, s, n, i, id, state);
      case Exec(tid, x) => ExecStays(w, s, tid, x, id, state);
      case Decide(x, kind, who, appended) => DecideStays(s.mem, x, kind, who, s.now, appended, id, state);
      case Outside(o) => WorldStays(s, o, id, state);
    }
  }

  lemma ReplayStays(m: Requests, e: Event, id: Id, state: State)
    requires In(m, id, state) && IsRefusal(state)
    requires e.Requested? || e.Decided? || e.Lapsed? ==> e.id != id
    ensures In(Apply(m, e), id, state)
  {
  }

  // The request stands so in the log, and in memory while there is one.
  predicate Kept(s: Sys, id: Id, state: State) {
    In(Replay(s.log), id, state) && (s.up ==> In(s.mem, id, state))
  }

  lemma EventElsewhere(w: World, s: Sys, t: Step, e: Event, id: Id, state: State)
    requires AllUnseen(s) && Origin(s, t, e) && Kept(s, id, state) && IsRefusal(state)
    ensures e.Requested? || e.Decided? || e.Lapsed? ==> e.id != id
  {
    if e.Requested? { assert Unseen(s, s.submits[t.nonce]); }
  }

  lemma KeptStays(w: World, s: Sys, t: Step, s': Sys, id: Id, state: State)
    requires AllUnseen(s) && Enabled(w, s, t) && s' == Do(w, s, t) && Kept(s, id, state) && IsRefusal(state)
    ensures Kept(s', id, state)
  {
    LogFacts(w, s, t);
    if s'.log != s.log {
      var e :| s'.log == s.log + [e] && Origin(s, t, e);
      LogAppend(s.log, e);
      EventElsewhere(w, s, t, e, id, state);
      ReplayStays(Replay(s.log), e, id, state);
    }
    if s.up && !Crashes(t) { MemoryStays(w, s, t, id, state); } else { BootedFromLog(w, s, t); }
  }

  lemma BootedFromLog(w: World, s: Sys, t: Step)
    requires Enabled(w, s, t) && (!s.up || Crashes(t))
    ensures var s' := Do(w, s, t); s'.up ==> s'.mem == Replay(s.log) && s'.log == s.log
  {
  }

  // Which refusal makes which state.
  predicate Refuses(kind: Decision, state: State) {
    (kind == Reject && state == Rejected) || (kind == RequestAlternative && state == AlternativeRequested)
  }

  lemma InMemoryIsLogged(w: World, s: Sys, id: Id)
    requires Inv(w, s) && s.up && id in s.mem
    ensures id != "" && id in Replay(s.log)
  {
    assert Sound(w, s.nonces, id, s.mem[id]);
  }

  lemma AppliedStands(s: Sys, t: Step, id: Id, kind: Decision, who: string, state: State)
    requires Applies(s, t, id, kind, who) && Refuses(kind, state) && id != "" && id in Replay(s.log)
    ensures var s' := DecideDo(s, t.id, t.kind, t.who, t.appended);
            s'.up && In(s'.mem, id, state) && (t.appended ==> Kept(s', id, state))
  {
    DecisionsByName(s.mem, id, who, s.now, t.appended);
    if t.appended { LogAppend(s.log, Event.Decided(id, kind, who)); }
  }

  predicate AppliesAt(states: seq<Sys>, steps: seq<Step>, j: nat, id: Id, kind: Decision)
    requires j < |steps| < |states|
  {
    steps[j].Decide? && Applies(states[j], steps[j], id, kind, steps[j].who)
  }

  // A decision of step `j` that is not lost by state `k`: its append succeeded, or no crash has come
  // since.
  predicate Survives(states: seq<Sys>, steps: seq<Step>, j: nat, k: nat, id: Id, kind: Decision)
    requires j < k <= |steps| < |states|
  {
    AppliesAt(states, steps, j, id, kind) && (steps[j].appended || forall i :: j < i < k ==> !Crashes(steps[i]))
  }

  predicate StillStands(states: seq<Sys>, steps: seq<Step>, k: nat, id: Id, kind: Decision)
    requires k <= |steps| < |states|
  {
    exists j :: 0 <= j < k && Survives(states, steps, j, k, id, kind)
  }

  // In memory, and in the log too if it was appended.
  predicate Retained(s: Sys, id: Id, state: State, appended: bool) {
    if appended then Kept(s, id, state) else s.up && In(s.mem, id, state)
  }

  lemma RetainedStays(w: World, s: Sys, t: Step, s': Sys, id: Id, state: State, appended: bool)
    requires AllUnseen(s) && Enabled(w, s, t) && s' == Do(w, s, t) && IsRefusal(state)
    requires Retained(s, id, state, appended) && (appended || !Crashes(t))
    ensures Retained(s', id, state, appended)
  {
    if appended {
      KeptStays(w, s, t, s', id, state);
    } else {
      MemoryStays(w, s, t, id, state);
      StaysUp(w, s, t);
    }
  }

  lemma StaysUp(w: World, s: Sys, t: Step)
    requires Enabled(w, s, t) && s.up && !Crashes(t)
    ensures Do(w, s, t).up
  {
    if t.Sweep? { SweepFacts(s, t.tid, t.y); }
  }

  lemma AppliedHolds(w: World, states: seq<Sys>, steps: seq<Step>, j: nat, id: Id, kind: Decision, state: State)
    requires Collisionless(w) && Run(w, states, steps) && j < |steps| && Refuses(kind, state)
    requires AppliesAt(states, steps, j, id, kind)
    ensures Retained(states[j + 1], id, state, steps[j].appended)
  {
    RunNamed(w, states, steps, j, id);
    AppliedStands(states[j], steps[j], id, kind, steps[j].who, state);
  }

  lemma RetainedOn(w: World, states: seq<Sys>, steps: seq<Step>, k: nat, id: Id, state: State, appended: bool)
    requires Collisionless(w) && Run(w, states, steps) && k < |steps| && IsRefusal(state)
    requires Retained(states[k], id, state, appended) && (appended || !Crashes(steps[k]))
    ensures Retained(states[k + 1], id, state, appended)
  {
    RunUnseen(w, states, steps, k);
    RetainedStays(w, states[k], steps[k], states[k + 1], id, state, appended);
  }

  lemma {:induction false} SurvivorStands(w: World, states: seq<Sys>, steps: seq<Step>, j: nat, k: nat,
                                          id: Id, kind: Decision, state: State)
    requires Collisionless(w) && Run(w, states, steps) && j < k <= |steps| && Refuses(kind, state)
    requires Survives(states, steps, j, k, id, kind)
    ensures Retained(states[k], id, state, steps[j].appended)
    decreases k
  {
    if k == j + 1 {
      AppliedHolds(w, states, steps, j, id, kind, state);
    } else {
      assert Survives(states, steps, j, k - 1, id, kind);
      SurvivorStands(w, states, steps, j, k - 1, id, kind, state);
      RetainedOn(w, states, steps, k - 1, id, state, steps[j].appended);
    }
  }

  lemma RunUnseen(w: World, states: seq<Sys>, steps: seq<Step>, k: nat)
    requires Collisionless(w) && Run(w, states, steps) && k <= |steps|
    ensures AllUnseen(states[k])
  {
    RunInv(w, states, steps);
    SubmissionsUnseen(w, states[k]);
  }

  lemma RunNamed(w: World, states: seq<Sys>, steps: seq<Step>, k: nat, id: Id)
    requires Collisionless(w) && Run(w, states, steps) && k <= |steps| && states[k].up && id in states[k].mem
    ensures id != "" && id in Replay(states[k].log)
  {
    RunInv(w, states, steps);
    InMemoryIsLogged(w, states[k], id);
  }

  predicate RefusalLoggedBefore(states: seq<Sys>, steps: seq<Step>, k: nat, id: Id, kind: Decision)
    requires k <= |steps| < |states|
  {
    exists j :: 0 <= j < k && AppliesAt(states, steps, j, id, kind) && steps[j].appended
  }

  lemma NothingReplayed(s: Sys, id: Id, state: State)
    requires s.log == []
    ensures !In(Replay(s.log), id, state)
  {
  }

  // A refusal the log replays was logged.
  lemma {:induction false} ReplayedWasLogged(w: World, states: seq<Sys>, steps: seq<Step>, k: nat,
                                             id: Id, kind: Decision, state: State)
    requires Collisionless(w) && Run(w, states, steps) && k <= |steps| && Refuses(kind, state)
    requires In(Replay(states[k].log), id, state)
    ensures RefusalLoggedBefore(states, steps, k, id, kind)
    decreases k
  {
    NothingReplayed(states[0], id, state);
    if k > 0 {
      if In(Replay(states[k - 1].log), id, state) {
        ReplayedWasLogged(w, states, steps, k - 1, id, kind, state);
      } else {
        RunUnseen(w, states, steps, k - 1);
        ReplayedHere(w, states[k - 1], steps[k - 1], states[k], id, kind, state);
        assert AppliesAt(states, steps, k - 1, id, kind);
      }
    }
  }

  lemma ReplayedHere(w: World, s: Sys, t: Step, s': Sys, id: Id, kind: Decision, state: State)
    requires AllUnseen(s) && Enabled(w, s, t) && s' == Do(w, s, t) && Refuses(kind, state)
    requires !In(Replay(s.log), id, state) && In(Replay(s'.log), id, state)
    ensures t.Decide? && Applies(s, t, id, kind, t.who) && t.appended
  {
    LogFacts(w, s, t);
    RefusalLogged(s, t, s'.log, id, kind, state);
  }

  lemma RefusalLogged(s: Sys, t: Step, log: seq<Event>, id: Id, kind: Decision, state: State)
    requires AllUnseen(s) && Refuses(kind, state) && (log == s.log || exists e :: log == s.log + [e] && Origin(s, t, e))
    requires !In(Replay(s.log), id, state) && In(Replay(log), id, state)
    ensures t.Decide? && Applies(s, t, id, kind, t.who) && t.appended
  {
    var e :| log == s.log + [e] && Origin(s, t, e);
    LogAppend(s.log, e);
    RefusalMade(Replay(s.log), e, id, kind, state);
    BornUnrefused(s, t, e);
  }

  lemma BornUnrefused(s: Sys, t: Step, e: Event)
    requires AllUnseen(s) && Origin(s, t, e)
    ensures e.Requested? ==> e.born == Pending || e.born == Approved
  {
    if e.Requested? { assert Unseen(s, s.submits[t.nonce]); }
  }

  lemma RefusalMade(m: Requests, e: Event, id: Id, kind: Decision, state: State)
    requires Refuses(kind, state) && !In(m, id, state) && In(Apply(m, e), id, state)
    ensures (e.Decided? && e.id == id && e.kind == kind) || (e.Requested? && e.born == state)
  {
  }

  // A refusal in memory applied and is not lost.
  lemma {:induction false} StandingSurvives(w: World, states: seq<Sys>, steps: seq<Step>, k: nat,
                                            id: Id, kind: Decision, state: State) returns (j: nat)
    requires Collisionless(w) && Run(w, states, steps) && k <= |steps| && Refuses(kind, state)
    requires states[k].up && In(states[k].mem, id, state)
    ensures j < k && Survives(states, steps, j, k, id, kind)
    decreases k
  {
    var s, t := states[k - 1], steps[k - 1];
    RunUnseen(w, states, steps, k - 1);
    if s.up && In(s.mem, id, state) && !Crashes(t) {
      j := StandingSurvives(w, states, steps, k - 1, id, kind, state);
    } else if In(Replay(s.log), id, state) {
      ReplayedWasLogged(w, states, steps, k - 1, id, kind, state);
      j :| 0 <= j < k - 1 && AppliesAt(states, steps, j, id, kind) && steps[j].appended;
    } else {
      j := k - 1;
      RefusalApplied(w, s, t, states[k], id, kind, state);
    }
  }

  // A refusal new to memory and log is this step's decision.
  lemma RefusalApplied(w: World, s: Sys, t: Step, s': Sys, id: Id, kind: Decision, state: State)
    requires AllUnseen(s) && Enabled(w, s, t) && s' == Do(w, s, t) && Refuses(kind, state) && !In(Replay(s.log), id, state)
    requires (s.up && !Crashes(t) ==> !In(s.mem, id, state)) && s'.up && In(s'.mem, id, state)
    ensures t.Decide? && Applies(s, t, id, kind, t.who)
  {
    if s.up && !Crashes(t) {
      var who := s'.mem[id].decidedBy;
      MemoryCause(w, s, t, id, state, who);
      NotSubmittedSo(s, id, state, who);
      RefusalCaused(w, s, t, id, kind, state, who);
    } else {
      BootedFromLog(w, s, t);
    }
  }

  lemma RefusalCaused(w: World, s: Sys, t: Step, id: Id, kind: Decision, state: State, who: string)
    requires Causes(w, s, t, id, state, who) && Refuses(kind, state)
    ensures t.Decide? && Applies(s, t, id, kind, t.who)
  {
  }

  lemma NotSubmittedSo(s: Sys, id: Id, state: State, who: string)
    requires AllUnseen(s) && IsRefusal(state)
    ensures !Submitted(s, id, state, who)
  {
    forall n | n in s.submits ensures !SubmittedAs(s.submits[n], id, state, who) {
      assert Unseen(s, s.submits[n]);
    }
  }

  // Over any run with crashes and failed appends: a request reads rejected, or as one an alternative
  // was asked for, exactly while the decision of that name which applied to it stands: durably if
  // its append succeeded, and otherwise until the next crash.
  lemma RefusalsStand(w: World, states: seq<Sys>, steps: seq<Step>, id: Id)
    requires Collisionless(w) && Run(w, states, steps) && states[|steps|].up && id in states[|steps|].mem
    ensures var q := states[|steps|].mem[id];
            && (q.state == Rejected <==> StillStands(states, steps, |steps|, id, Reject))
            && (q.state == AlternativeRequested <==> StillStands(states, steps, |steps|, id, RequestAlternative))
  {
    RefusalStands(w, states, steps, id, Reject, Rejected);
    RefusalStands(w, states, steps, id, RequestAlternative, AlternativeRequested);
  }

  lemma RefusalStands(w: World, states: seq<Sys>, steps: seq<Step>, id: Id, kind: Decision, state: State)
    requires Collisionless(w) && Run(w, states, steps) && states[|steps|].up && Refuses(kind, state)
    ensures In(states[|steps|].mem, id, state) <==> StillStands(states, steps, |steps|, id, kind)
  {
    var k := |steps|;
    if In(states[k].mem, id, state) {
      var j := StandingSurvives(w, states, steps, k, id, kind, state);
    }
    if StillStands(states, steps, k, id, kind) {
      var j :| 0 <= j < k && Survives(states, steps, j, k, id, kind);
      SurvivorStands(w, states, steps, j, k, id, kind, state);
    }
  }

  // ----- An approval the log never hears of -----

  function Waiting(w: World, i: Intent): Submission {
    Submission(w.ident(i), OpenRequest(w.hash(i), i, false), NonceClaimed)
  }

  // A payment that waits for its owner, held, logged and visible.
  function WaitingState(w: World, s: Sys, i: Intent): Sys {
    s.(nonces := {i.nonce}, ledger := map[w.ident(i) := HeldEntry(i)],
       log := [Reserved(w.ident(i), WholeSeconds(i.expiresAt))] + [RequestEvent(Waiting(w, i))],
       mem := map[w.ident(i) := OpenRequest(w.hash(i), i, false)])
  }

  function WaitingSteps(i: Intent): seq<Step> {
    [] + [Intake(i.nonce, Begin(i, false))] + [Intake(i.nonce, IntakeStep.Reserve)] + [Intake(i.nonce, LogRequest)]
    + [Intake(i.nonce, Publish)]
  }

  predicate Untouched(s: Sys, i: Intent) {
    && s.up && s.submits == map[] && s.nonces == {} && s.log == [] && s.ledger == map[] && s.mem == map[]
    && s.execs == map[] && s.started == [] && !Covered(s.frozen, i) && i.policyVersion == s.version
  }

  lemma WaitingRun(w: World, s: Sys, i: Intent)
    requires Untouched(s, i) && Budget.Openable(i)
    ensures After(Next(w), s, WaitingSteps(i)) == Some(WaitingState(w, s, i))
  {
    var next, sub, n, id := Next(w), Waiting(w, i), i.nonce, w.ident(i);
    var a, b := Intake(n, Begin(i, false)), Intake(n, IntakeStep.Reserve);
    var begun := s.(nonces := {n}, submits := map[n := sub]);
    var held := begun.(log := [Reserved(id, WholeSeconds(i.expiresAt))], ledger := map[id := HeldEntry(i)],
                       submits := map[n := sub.(stage := Held)]);
    assert i.(policyVersion := s.version) == i && {} + {n} == {n};
    assert next(s, a) == Some(begun);
    ThenOnce(next, s, [], s, a, begun);
    assert begun.submits[n := sub.(stage := Held)] == held.submits && begun.ledger[id := HeldEntry(i)] == held.ledger;
    assert begun.log + [Reserved(id, WholeSeconds(i.expiresAt))] == held.log;
    assert next(begun, b) == Some(held);
    ThenOnce(next, s, [] + [a], begun, b, held);
    PublishWaiting(w, s, i, held);
  }

  lemma PublishWaiting(w: World, s: Sys, i: Intent, held: Sys)
    requires Untouched(s, i) && i.kind != ADVANCE
    requires held == s.(nonces := {i.nonce}, log := [Reserved(w.ident(i), WholeSeconds(i.expiresAt))],
                        ledger := map[w.ident(i) := HeldEntry(i)], submits := map[i.nonce := Waiting(w, i).(stage := Held)])
    requires After(Next(w), s, [] + [Intake(i.nonce, Begin(i, false))] + [Intake(i.nonce, IntakeStep.Reserve)]) == Some(held)
    ensures After(Next(w), s, WaitingSteps(i)) == Some(WaitingState(w, s, i))
  {
    var next, sub, n := Next(w), Waiting(w, i), i.nonce;
    var steps := [] + [Intake(n, Begin(i, false))] + [Intake(n, IntakeStep.Reserve)];
    var logged := held.(log := held.log + [RequestEvent(sub)], submits := map[n := sub.(stage := Logged)]);
    assert held.submits[n := sub.(stage := Logged)] == logged.submits;
    assert next(held, Intake(n, LogRequest)) == Some(logged);
    ThenOnce(next, s, steps, held, Intake(n, LogRequest), logged);
    var end := WaitingState(w, s, i);
    assert logged.submits - {n} == map[] && logged.mem[sub.id := sub.req] == end.mem;
    assert next(logged, Intake(n, Publish)) == Some(end);
    ThenOnce(next, s, steps + [Intake(n, LogRequest)], logged, Intake(n, Publish), end);
  }

  // Approved in memory alone: the append of the decision failed.
  function ApprovedState(w: World, s: Sys, i: Intent, who: string): Sys {
    var approved := OpenRequest(w.hash(i), i, false).(state := Approved, decidedBy := who, waiting := false);
    WaitingState(w, s, i).(mem := map[w.ident(i) := approved])
  }

  function PayingSteps(id: Id, i: Intent, who: string): seq<Step> {
    [] + [Step.Decide(id, Some(Approve), who, false)] + [Exec(0, Gate(id, i, false))] + [Exec(0, LogClaim)] + [Exec(0, Start)]
  }

  lemma PayingRun(w: World, s: Sys, i: Intent, who: string) returns (end: Sys)
    requires Untouched(s, i) && s.now < i.expiresAt && who != ""
    ensures After(Next(w), WaitingState(w, s, i), PayingSteps(w.ident(i), i, who)) == Some(end)
    ensures end.started == [ClaimOf(ApprovedState(w, s, i, who), w.ident(i), i)]
    ensures end.log == WaitingState(w, s, i).log + [Executing(w.ident(i))]
  {
    var next, id, waiting, approved := Next(w), w.ident(i), WaitingState(w, s, i), ApprovedState(w, s, i, who);
    var decide, claim := Step.Decide(id, Some(Approve), who, false), ClaimOf(approved, id, i);
    var gated := approved.(mem := approved.mem[id := approved.mem[id].(executed := true)],
                           execs := map[0 := Execution(claim, false)]);
    var logged := gated.(log := waiting.log + [Executing(id)], execs := map[0 := Execution(claim, true)]);
    end := logged.(execs := map[], started := [claim]);
    assert waiting.mem[id := approved.mem[id]] == approved.mem && waiting.log + [] == waiting.log;
    assert next(waiting, decide) == Some(approved);
    ThenOnce(next, waiting, [], waiting, decide, approved);
    assert next(approved, Exec(0, Gate(id, i, false))) == Some(gated);
    ThenOnce(next, waiting, [] + [decide], approved, Exec(0, Gate(id, i, false)), gated);
    assert gated.execs[0 := Execution(claim, true)] == logged.execs;
    assert next(gated, Exec(0, LogClaim)) == Some(logged);
    ThenOnce(next, waiting, [] + [decide] + [Exec(0, Gate(id, i, false))], gated, Exec(0, LogClaim), logged);
    assert logged.execs - {0} == map[] && [] + [claim] == [claim];
    assert next(logged, Exec(0, Start)) == Some(end);
    ThenOnce(next, waiting, [] + [decide] + [Exec(0, Gate(id, i, false))] + [Exec(0, LogClaim)], logged, Exec(0, Start), end);
  }

  lemma UnloggedApprovalRun(w: World, s: Sys, i: Intent, who: string) returns (steps: seq<Step>, end: Sys)
    requires Initial(s) && Budget.Openable(i) && i.policyVersion == s.version && !Covered(s.frozen, i)
    requires s.now < i.expiresAt && who != ""
    ensures After(Next(w), s, steps) == Some(end)
    ensures end.started == [ClaimOf(ApprovedState(w, s.(up := true), i, who), w.ident(i), i)]
    ensures end.log == WaitingState(w, s.(up := true), i).log + [Executing(w.ident(i))]
  {
    var next, boot := Next(w), s.(up := true);
    assert next(s, Outside(Boot)) == Some(boot);
    ThenOnce(next, s, [], s, Outside(Boot), boot);
    WaitingRun(w, boot, i);
    Then(next, s, [] + [Outside(Boot)], boot, WaitingSteps(i));
    end := PayingRun(w, boot, i, who);
    steps := [] + [Outside(Boot)] + WaitingSteps(i);
    Then(next, s, steps, WaitingState(w, boot, i), PayingSteps(w.ident(i), i, who));
    steps := steps + PayingSteps(w.ident(i), i, who);
  }

  // An approval whose append fails is refused to its decider and acted on all the same: the payment
  // starts, and the log has its claim and no decision.
  lemma UnloggedApprovalStarts(w: World, s: Sys, i: Intent, who: string) returns (states: seq<Sys>, steps: seq<Step>, c: Claim)
    requires Initial(s) && Budget.Openable(i) && i.policyVersion == s.version && !Covered(s.frozen, i)
    requires s.now < i.expiresAt && who != ""
    ensures Run(w, states, steps) && c in states[|steps|].started && c.id == w.ident(i) && c.decidedBy == who
    ensures forall e :: e in states[|steps|].log ==> !e.Decided?
  {
    var end;
    steps, end := UnloggedApprovalRun(w, s, i, who);
    states := RunTo(w, s, steps, end);
    c := end.started[0];
  }
}
