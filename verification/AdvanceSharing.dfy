// Advances on a shared vault job: the chain answers for the job, so an advance that never landed
// can be recorded executed once another on its job has. Exactly then.
module AdvanceSharing {
  import opened Wrappers
  import opened Advances
  import opened AdvanceRuns
  import opened Traces

  function Next(refs: Refs): (Sys, Step) -> Option<Sys> {
    (s, t) => if Enabled(refs, s, t) then Some(Do(refs, s, t)) else None
  }

  function Trail(id: Id, ref: string): seq<Event> {
    [Proposed(id, ref)] + [Decided(id, true, "owner")] + [Executing(id)]
  }

  function DecideSteps(id: Id): seq<Step> {
    [] + [Propose(id)] + [Step.Decide(id, true, "owner", true)]
  }

  function ClaimSteps(id: Id): seq<Step> {
    DecideSteps(id) + ([] + [Claim(id)] + [LogClaim(id)])
  }

  function Claimant(ref: string): Request {
    Request(ref, Approved, "owner", true)
  }

  // Proposed and approved by its owner.
  function AfterDecision(s: Sys, id: Id, ref: string): Sys {
    s.(log := s.log + [Proposed(id, ref)] + [Decided(id, true, "owner")],
       mem := s.mem[id := Claimant(ref).(executed := false)], awaits := map[id := Waiting],
       proposedIn := s.proposedIn[id := s.incarnation], approvals := s.approvals + {OwnersAt(s, id)})
  }

  function OwnersAt(s: Sys, id: Id): Approval {
    Approval(id, s.incarnation, "owner")
  }

  // Proposed, approved and durably claimed, in a serving process with nothing else under way.
  function AfterClaim(s: Sys, id: Id, ref: string): Sys {
    s.(log := s.log + Trail(id, ref), mem := s.mem[id := Claimant(ref)], awaits := map[id := Durable("owner")],
       proposedIn := s.proposedIn[id := s.incarnation], approvals := s.approvals + {OwnersAt(s, id)})
  }

  lemma DecideRun(refs: Refs, s: Sys, id: Id)
    requires s.phase.Serving? && s.awaits == map[] && id in refs && id !in s.proposedIn
    ensures After(Next(refs), s, DecideSteps(id)) == Some(AfterDecision(s, id, refs[id]))
  {
    var ref, next := refs[id], Next(refs);
    var proposed := s.(log := s.log + [Proposed(id, ref)], mem := s.mem[id := Request(ref, Pending, "", false)],
                       awaits := map[id := Waiting], proposedIn := s.proposedIn[id := s.incarnation]);
    var decided := AfterDecision(s, id, ref);
    assert next(s, Propose(id)) == Some(proposed);
    ThenOnce(next, s, [], s, Propose(id), proposed);
    assert proposed.mem[id := Claimant(ref).(executed := false)] == decided.mem;
    assert next(proposed, Step.Decide(id, true, "owner", true)) == Some(decided);
    ThenOnce(next, s, [] + [Propose(id)], proposed, Step.Decide(id, true, "owner", true), decided);
  }

  lemma ClaimRun(refs: Refs, s: Sys, id: Id)
    requires s.phase.Serving? && s.awaits == map[] && id in refs && id !in s.proposedIn
    ensures After(Next(refs), s, ClaimSteps(id)) == Some(AfterClaim(s, id, refs[id]))
  {
    var decided, end := AfterDecision(s, id, refs[id]), AfterClaim(s, id, refs[id]);
    DecideRun(refs, s, id);
    TakeClaim(refs, decided, id);
    assert decided.mem[id := Claimant(refs[id])] == end.mem && decided.log + [Executing(id)] == end.log;
    Then(Next(refs), s, DecideSteps(id), decided, [] + [Claim(id)] + [LogClaim(id)]);
  }

  // The await of an approved request claims it, durably.
  lemma TakeClaim(refs: Refs, s: Sys, id: Id)
    requires s.phase.Serving? && s.awaits == map[id := Waiting] && id in s.mem
    requires s.mem[id].state == Approved && s.mem[id].decidedBy == "owner" && !s.mem[id].executed
    ensures After(Next(refs), s, [] + [Claim(id)] + [LogClaim(id)])
            == Some(s.(mem := s.mem[id := s.mem[id].(executed := true)], awaits := map[id := Durable("owner")],
                       log := s.log + [Executing(id)]))
  {
    var next := Next(refs);
    var claimed := s.(mem := s.mem[id := s.mem[id].(executed := true)], awaits := map[id := Claimed("owner")]);
    var end := claimed.(awaits := map[id := Durable("owner")], log := s.log + [Executing(id)]);
    assert s.awaits[id := Claimed("owner")] == claimed.awaits;
    assert next(s, Claim(id)) == Some(claimed);
    ThenOnce(next, s, [], s, Claim(id), claimed);
    assert claimed.awaits[id := Durable("owner")] == end.awaits;
    assert next(claimed, LogClaim(id)) == Some(end);
    ThenOnce(next, s, [] + [Claim(id)], claimed, LogClaim(id), end);
  }

  // What a restart makes of such a trail.
  lemma TrailReplays(log: seq<Event>, id: Id, ref: string)
    requires id !in Replay(log)
    ensures Replay(log + Trail(id, ref)) == Replay(log)[id := Claimant(ref)]
    ensures forall x :: Resolved(log + Trail(id, ref), x) <==> Resolved(log, x)
  {
    var a, b, c := Proposed(id, ref), Decided(id, true, "owner"), Executing(id);
    LogAppend(log, a);
    LogAppend(log + [a], b);
    LogAppend(log + [a] + [b], c);
    assert log + Trail(id, ref) == log + [a] + [b] + [c];
  }

  // ----- Three lives of the daemon -----

  const NEVER_RUN: Sys := Sys(Down, [], map[], map[], {}, 0, map[], {}, [])

  // Down after the first life: `a` claimed, nothing submitted.
  function FirstDown(a: Id, ref: string): Sys {
    NEVER_RUN.(log := Trail(a, ref), incarnation := 1, proposedIn := map[a := 1],
               approvals := {Approval(a, 1, "owner")})
  }

  function FirstSteps(a: Id): seq<Step> {
    [] + [Boot] + [Serve] + ClaimSteps(a) + [Crash]
  }

  lemma FirstLife(refs: Refs, a: Id)
    requires a in refs
    ensures After(Next(refs), NEVER_RUN, FirstSteps(a)) == Some(FirstDown(a, refs[a]))
  {
    var next := Next(refs);
    var booted := NEVER_RUN.(phase := Escalating({}), incarnation := 1);
    var serving := booted.(phase := Serving);
    var none: Requests := map[];
    assert Replay([]) == none && none.Keys == {};
    assert next(NEVER_RUN, Boot) == Some(booted);
    ThenOnce(next, NEVER_RUN, [], NEVER_RUN, Boot, booted);
    assert next(booted, Serve) == Some(serving);
    ThenOnce(next, NEVER_RUN, [] + [Boot], booted, Serve, serving);
    ClaimRun(refs, serving, a);
    Then(next, NEVER_RUN, [] + [Boot] + [Serve], serving, ClaimSteps(a));
    var claimed := AfterClaim(serving, a, refs[a]);
    assert [] + Trail(a, refs[a]) == Trail(a, refs[a]);
    assert {} + {OwnersAt(serving, a)} == {Approval(a, 1, "owner")};
    assert next(claimed, Crash) == Some(FirstDown(a, refs[a]));
    ThenOnce(next, NEVER_RUN, [] + [Boot] + [Serve] + ClaimSteps(a), claimed, Crash, FirstDown(a, refs[a]));
  }

  // The log after the second life: `a` handed to the owner, `b` claimed.
  function SecondLog(a: Id, b: Id, ref: string): seq<Event> {
    Trail(a, ref) + [Interrupted(a)] + Trail(b, ref)
  }

  // Down after the second life: the advance of `b` landed, its outcome not yet recorded.
  function SecondDown(a: Id, b: Id, ref: string): Sys {
    NEVER_RUN.(log := SecondLog(a, b, ref), landed := {b}, incarnation := 2, proposedIn := map[a := 1][b := 2],
               approvals := {Approval(a, 1, "owner"), Approval(b, 2, "owner")}, started := [Approval(b, 2, "owner")])
  }

  function SecondSteps(a: Id, b: Id): seq<Step> {
    [] + [Boot] + [Escalate(a, NotLanded)] + [Serve] + ClaimSteps(b)
    + ([] + [Submit(b, Mined(true), true)] + [Crash])
  }

  // The process serving in the second life.
  function SecondServing(a: Id, ref: string): Sys {
    FirstDown(a, ref).(phase := Serving, log := Trail(a, ref) + [Interrupted(a)], mem := map[a := Claimant(ref)], incarnation := 2)
  }

  function SecondBooted(a: Id, ref: string): Sys {
    FirstDown(a, ref).(phase := Escalating({a}), mem := map[a := Claimant(ref)], incarnation := 2)
  }

  lemma SecondRecover(refs: Refs, a: Id)
    requires a in refs
    ensures After(Next(refs), FirstDown(a, refs[a]), [] + [Boot]) == Some(SecondBooted(a, refs[a]))
    ensures !Resolved(SecondBooted(a, refs[a]).log, a)
  {
    FirstReplays(a, refs[a]);
    BootRun(refs, FirstDown(a, refs[a]));
  }

  lemma FirstReplays(a: Id, ref: string)
    ensures Replay(Trail(a, ref)) == map[a := Claimant(ref)] && Replay(Trail(a, ref)).Keys == {a}
    ensures !Resolved(Trail(a, ref), a)
  {
    TrailReplays([], a, ref);
    assert [] + Trail(a, ref) == Trail(a, ref);
    var none: Requests := map[];
    assert Replay([]) == none && none[a := Claimant(ref)] == map[a := Claimant(ref)];
  }

  lemma BootRun(refs: Refs, s: Sys)
    requires s.phase.Down?
    ensures var m := Replay(s.log);
            After(Next(refs), s, [] + [Boot])
            == Some(s.(phase := Escalating(m.Keys), mem := m, awaits := map[], incarnation := s.incarnation + 1))
  {
    var m := Replay(s.log);
    var booted := s.(phase := Escalating(m.Keys), mem := m, awaits := map[], incarnation := s.incarnation + 1);
    assert Next(refs)(s, Boot) == Some(booted);
    ThenOnce(Next(refs), s, [], s, Boot, booted);
  }

  lemma SecondBoot(refs: Refs, a: Id)
    requires a in refs
    ensures After(Next(refs), FirstDown(a, refs[a]), [] + [Boot] + [Escalate(a, NotLanded)] + [Serve])
            == Some(SecondServing(a, refs[a]))
  {
    var next, s, ref := Next(refs), FirstDown(a, refs[a]), refs[a];
    var booted := SecondBooted(a, ref);
    SecondRecover(refs, a);
    var told := booted.(phase := Escalating({}), log := s.log + [Interrupted(a)]);
    assert {a} - {a} == {};
    assert Escalation(booted.log, a, booted.mem[a], NotLanded) == Some(Interrupted(a));
    assert next(booted, Escalate(a, NotLanded)) == Some(told);
    ThenOnce(next, s, [] + [Boot], booted, Escalate(a, NotLanded), told);
    assert next(told, Serve) == Some(SecondServing(a, ref));
    ThenOnce(next, s, [] + [Boot] + [Escalate(a, NotLanded)], told, Serve, SecondServing(a, ref));
  }

  // The one claimed advance is submitted and lands, and the process dies.
  lemma LandAndCrash(refs: Refs, s: Sys, id: Id)
    requires s.phase.Serving? && s.awaits == map[id := Durable("owner")] && s.landed == {} && s.started == []
    ensures After(Next(refs), s, [] + [Submit(id, Mined(true), true)] + [Crash])
            == Some(s.(phase := Down, mem := map[], awaits := map[], landed := {id}, started := [OwnersAt(s, id)]))
  {
    var next, submit := Next(refs), Submit(id, Mined(true), true);
    var submitted := s.(awaits := map[id := Submitted(Mined(true))], landed := {id}, started := [OwnersAt(s, id)]);
    assert s.awaits[id := Submitted(Mined(true))] == submitted.awaits;
    assert {} + {id} == {id} && [] + [OwnersAt(s, id)] == [OwnersAt(s, id)];
    assert next(s, submit) == Some(submitted);
    ThenOnce(next, s, [], s, submit, submitted);
    var end := submitted.(phase := Down, mem := map[], awaits := map[]);
    assert next(submitted, Crash) == Some(end);
    ThenOnce(next, s, [] + [submit], submitted, Crash, end);
  }

  lemma SecondLife(refs: Refs, a: Id, b: Id)
    requires a in refs && b in refs && a != b && refs[a] == refs[b]
    ensures After(Next(refs), FirstDown(a, refs[a]), SecondSteps(a, b)) == Some(SecondDown(a, b, refs[a]))
  {
    var next, s, serving := Next(refs), FirstDown(a, refs[a]), SecondServing(a, refs[a]);
    var opening, ending := [] + [Boot] + [Escalate(a, NotLanded)] + [Serve], [] + [Submit(b, Mined(true), true)] + [Crash];
    var claimed := AfterClaim(serving, b, refs[b]);
    SecondBoot(refs, a);
    ClaimRun(refs, serving, b);
    Then(next, s, opening, serving, ClaimSteps(b));
    LandAndCrash(refs, claimed, b);
    Then(next, s, opening + ClaimSteps(b), claimed, ending);
    assert serving.approvals + {OwnersAt(serving, b)} == {Approval(a, 1, "owner"), Approval(b, 2, "owner")};
  }

  function ThirdSteps(a: Id): seq<Step> {
    [] + [Boot] + [Escalate(a, Landed)]
  }

  lemma SecondReplays(a: Id, b: Id, ref: string)
    requires a != b
    ensures Replay(SecondLog(a, b, ref)) == map[a := Claimant(ref)][b := Claimant(ref)] && !Resolved(SecondLog(a, b, ref), a)
  {
    TrailReplays([], a, ref);
    assert [] + Trail(a, ref) == Trail(a, ref);
    LogAppend(Trail(a, ref), Interrupted(a));
    TrailReplays(Trail(a, ref) + [Interrupted(a)], b, ref);
  }

  // The third boot asks the chain about the job, and the advance of `b` answers for `a`.
  lemma ThirdLife(refs: Refs, a: Id, b: Id) returns (end: Sys)
    requires a in refs && b in refs && a != b && refs[a] == refs[b] && refs[a] != ""
    ensures After(Next(refs), SecondDown(a, b, refs[a]), ThirdSteps(a)) == Some(end)
    ensures ExecutedCount(end.log, a) > 0 && end.landed == {b}
  {
    var next, s, ref := Next(refs), SecondDown(a, b, refs[a]), refs[a];
    SecondReplays(a, b, ref);
    var booted := s.(phase := Escalating({a, b}), mem := map[a := Claimant(ref)][b := Claimant(ref)], incarnation := 3);
    assert Replay(s.log) == booted.mem && booted.mem.Keys == {a, b};
    assert next(s, Boot) == Some(booted);
    ThenOnce(next, s, [], s, Boot, booted);
    assert Escalation(booted.log, a, booted.mem[a], Landed) == Some(Executed(a, true));
    end := booted.(phase := Escalating({a, b} - {a}), log := s.log + [Executed(a, true)]);
    assert Honest(refs, booted, a, Landed);
    assert next(booted, Escalate(a, Landed)) == Some(end);
    ThenOnce(next, s, [] + [Boot], booted, Escalate(a, Landed), end);
    LogAppend(s.log, Executed(a, true));
  }

  lemma SharedJobIsMisrecorded(refs: Refs, a: Id, b: Id) returns (states: seq<Sys>, steps: seq<Step>)
    requires a in refs && b in refs && a != b && refs[a] == refs[b] && refs[a] != ""
    ensures Run(refs, states, steps) && !Truthful(states[|steps|])
  {
    var next := Next(refs);
    FirstLife(refs, a);
    SecondLife(refs, a, b);
    var end := ThirdLife(refs, a, b);
    Then(next, NEVER_RUN, FirstSteps(a), FirstDown(a, refs[a]), SecondSteps(a, b));
    Then(next, NEVER_RUN, FirstSteps(a) + SecondSteps(a, b), SecondDown(a, b, refs[a]), ThirdSteps(a));
    steps := FirstSteps(a) + SecondSteps(a, b) + ThirdSteps(a);
    TraceSteps(next, NEVER_RUN, steps);
    states := Trace(next, NEVER_RUN, steps);
    assert states[|steps|] == end && a !in end.landed;
    RunOfTrace(refs, states, steps);
  }

  lemma RunOfTrace(refs: Refs, states: seq<Sys>, steps: seq<Step>)
    requires |states| == |steps| + 1 && states[0] == NEVER_RUN
    requires forall k :: 0 <= k < |steps| ==> Next(refs)(states[k], steps[k]) == Some(states[k + 1])
    ensures Run(refs, states, steps)
  {
    forall k | 0 <= k < |steps|
      ensures Enabled(refs, states[k], steps[k]) && states[k + 1] == Do(refs, states[k], steps[k])
    {
      assert Next(refs)(states[k], steps[k]) == Some(states[k + 1]);
    }
  }

  // The log's executions are true in every run exactly when no vault job is drawn on twice.
  lemma TruthfulExactly(refs: Refs)
    ensures (forall states: seq<Sys>, steps :: Run(refs, states, steps) ==> Truthful(states[|steps|])) <==> Unshared(refs)
  {
    if Unshared(refs) {
      forall states: seq<Sys>, steps | Run(refs, states, steps) ensures Truthful(states[|steps|]) {
        RecordsAreTrue(refs, states, steps);
      }
    } else {
      var a, b :| a in refs && b in refs && refs[a] == refs[b] && refs[a] != "" && a != b;
      var states, steps := SharedJobIsMisrecorded(refs, a, b);
    }
  }
}
