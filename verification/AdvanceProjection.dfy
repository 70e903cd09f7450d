// The advance flow reads the requests and the log of the approval lifecycle: seen from the flow,
// every run of the lifecycle's state machine holds the advances it says it holds
// (daemon/internal/advancing/advancing.go, daemon/internal/approval/lifecycle.go).
module AdvanceProjection {
  import opened Wrappers
  import opened Intents
  import opened Approval
  import opened ApprovalRuns
  import opened ApprovalInvariant
  import opened ApprovalSafety
  import Flow = Advances

  function SeenState(state: State): Flow.State {
    match state
    case Pending => Flow.Pending
    case Approved => Flow.Approved
    case _ => Flow.Closed
  }

  // What the flow sees of one lifecycle event.
  function Seen(e: Event): seq<Flow.Event> {
    match e
    case Requested(id, _, intent, _, _) =>
      if id != "" && intent.kind == ADVANCE then [Flow.Proposed(id, intent.chainRef)] else []
    case Decided(id, kind, who) => [Flow.Decided(id, kind == Approve, who)]
    case Lapsed(id) => [Flow.Lapsed(id)]
    case Executing(id) => [Flow.Executing(id)]
    case _ => []
  }

  function Projected(log: seq<Event>): seq<Flow.Event> {
    if log == [] then [] else Projected(log[..|log| - 1]) + Seen(log[|log| - 1])
  }

  // A request the two hold alike; who closed one is of no account.
  predicate Shows(q: Request, r: Flow.Request) {
    && r.chainRef == q.intent.chainRef && r.state == SeenState(q.state) && r.executed == q.executed
    && (q.state == Approved ==> r.decidedBy == q.decidedBy)
  }

  // The flow holds exactly the advances.
  ghost predicate Agrees(m: Requests, advances: Flow.Requests) {
    forall id :: AgreesAt(m, advances, id)
  }

  predicate AgreesAt(m: Requests, advances: Flow.Requests, id: Id) {
    && (id in advances <==> id in m && m[id].intent.kind == ADVANCE)
    && (id in advances ==> Shows(m[id], advances[id]))
  }

  // No request is opened over another, and every advance is born pending.
  predicate OpensOnce(log: seq<Event>) {
    log == [] ||
    var before, e := log[..|log| - 1], log[|log| - 1];
    OpensOnce(before) && Fresh(before, e)
  }

  predicate Fresh(before: seq<Event>, e: Event) {
    e.Requested? ==> e.id !in Replay(before) && (e.intent.kind == ADVANCE ==> e.born == Pending)
  }

  function SeenApply(advances: Flow.Requests, e: Event): Flow.Requests {
    if Seen(e) == [] then advances else Flow.Apply(advances, Seen(e)[0])
  }

  // Neither fold touches another request than the event's own.
  lemma OthersStay(m: Requests, advances: Flow.Requests, e: Event, id: Id)
    requires e.Requested? || e.Decided? || e.Lapsed? || e.Executing? ==> e.id != id
    ensures id in Apply(m, e) <==> id in m
    ensures id in m ==> Apply(m, e)[id] == m[id]
    ensures id in SeenApply(advances, e) <==> id in advances
    ensures id in advances ==> SeenApply(advances, e)[id] == advances[id]
  {
  }

  lemma OwnAgrees(m: Requests, advances: Flow.Requests, e: Event)
    requires e.Requested? || e.Decided? || e.Lapsed? || e.Executing?
    requires AgreesAt(m, advances, e.id) && "" !in m
    requires e.Requested? ==> e.id !in m && (e.intent.kind == ADVANCE ==> e.born == Pending)
    ensures AgreesAt(Apply(m, e), SeenApply(advances, e), e.id)
  {
  }

  lemma AppliedAgrees(m: Requests, advances: Flow.Requests, e: Event)
    requires Agrees(m, advances) && "" !in m
    requires e.Requested? ==> e.id !in m && (e.intent.kind == ADVANCE ==> e.born == Pending)
    ensures Agrees(Apply(m, e), SeenApply(advances, e))
  {
    forall id ensures AgreesAt(Apply(m, e), SeenApply(advances, e), id) {
      assert AgreesAt(m, advances, id);
      if (e.Requested? || e.Decided? || e.Lapsed? || e.Executing?) && e.id == id {
        OwnAgrees(m, advances, e);
      } else {
        OthersStay(m, advances, e, id);
      }
    }
  }

  lemma SeenReplays(seen: seq<Flow.Event>, e: Event)
    ensures Flow.Replay(seen + Seen(e)) == SeenApply(Flow.Replay(seen), e)
  {
    if Seen(e) == [] {
      assert seen + Seen(e) == seen;
    } else {
      Flow.LogAppend(seen, Seen(e)[0]);
      assert seen + Seen(e) == seen + [Seen(e)[0]];
    }
  }

  // Replaying what the flow sees of a log is seeing what the lifecycle replays of it.
  lemma {:induction false} ReplayProjects(log: seq<Event>)
    requires OpensOnce(log)
    ensures Agrees(Replay(log), Flow.Replay(Projected(log)))
  {
    if log != [] {
      var before := log[..|log| - 1];
      ReplayProjects(before);
      ReplayNamesNoEmptyId(map[], before);
      AppliedAgrees(Replay(before), Flow.Replay(Projected(before)), log[|log| - 1]);
      SeenReplays(Projected(before), log[|log| - 1]);
    }
  }

  lemma OpensFresh(w: World, s: Sys, t: Step, e: Event)
    requires Inv(w, s) && Origin(s, t, e)
    ensures Fresh(s.log, e)
  {
    if e.Requested? {
      assert SubmissionOk(w, s.nonces, Replay(s.log), s.mem, t.nonce, s.submits[t.nonce]);
    }
  }

  lemma {:induction false} RunsOpenOnce(w: World, states: seq<Sys>, steps: seq<Step>)
    requires Collisionless(w) && Run(w, states, steps)
    ensures OpensOnce(states[|steps|].log)
  {
    if steps != [] {
      var n := |steps| - 1;
      var s, log := states[n], states[n + 1].log;
      RunInv(w, states, steps);
      RunsOpenOnce(w, states[..n + 1], steps[..n]);
      assert states[..n + 1][n] == s;
      LogFacts(w, s, steps[n]);
      if log != s.log {
        var e :| log == s.log + [e] && Origin(s, steps[n], e);
        OpensFresh(w, s, steps[n], e);
        assert log[..|log| - 1] == s.log;
      }
    }
  }

  // An advance that has started is held, claimed, and was approved by a named decider.
  predicate StartSeen(c: Claim, advances: Flow.Requests) {
    && c.id in advances && advances[c.id].executed && advances[c.id].chainRef == c.bound.chainRef
    && c.born == Pending && c.state == Approved && c.decidedBy != ""
  }

  lemma StartIsSeen(w: World, s: Sys, advances: Flow.Requests, c: Claim)
    requires Collisionless(w) && Inv(w, s) && Agrees(Replay(s.log), advances) && c in s.started && c.bound.kind == ADVANCE
    ensures StartSeen(c, advances)
  {
    var rep := Replay(s.log);
    assert ClaimedIn(rep, c.id) && Gated(w, c);
    assert Sound(w, s.nonces, c.id, rep[c.id]);
    assert AgreesAt(rep, advances, c.id);
  }

  // In every state of every run of the lifecycle, the advances a restarted flow finds are those a
  // restarted lifecycle finds, state, decider, claim and job alike; and each advance that ever
  // started is one of them, claimed, born pending and approved by a named decider.
  lemma FlowSeesTheLifecycle(w: World, states: seq<Sys>, steps: seq<Step>)
    requires Collisionless(w) && Run(w, states, steps)
    ensures var s := states[|steps|];
            var advances := Flow.Replay(Projected(s.log));
            && Agrees(Replay(s.log), advances)
            && forall c :: c in s.started && c.bound.kind == ADVANCE ==> StartSeen(c, advances)
  {
    var s := states[|steps|];
    RunsOpenOnce(w, states, steps);
    ReplayProjects(s.log);
    RunInv(w, states, steps);
    forall c | c in s.started && c.bound.kind == ADVANCE ensures StartSeen(c, Flow.Replay(Projected(s.log))) {
      StartIsSeen(w, s, Flow.Replay(Projected(s.log)), c);
    }
  }
}
