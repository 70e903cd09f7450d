// Advances over whole runs with restarts: none is resumed, each outcome is recorded as executed at
// most once, and exactly when a recorded execution is true of the chain
// (daemon/internal/advancing/advancing.go, daemon/cmd/snapfall/main.go).
module AdvanceRuns {
  import opened Wrappers
  import opened Advances

  // One await: until the decision; claimed, on whose approval; claim durable; submitted.
  datatype Stage = Waiting | Claimed(who: string) | Durable(who: string) | Submitted(out: ChainOutcome)

  // Whose approval, in which process; and a start on it.
  datatype Approval = Approval(id: Id, incarnation: nat, who: string)

  // A boot escalates what it recovered before it serves.
  datatype Phase = Down | Escalating(todo: set<Id>) | Serving

  // `incarnation` counts boots; `proposedIn`, `approvals` and `started` remember, and no step acts
  // on the last two; `landed` is the chain's truth.
  datatype Sys = Sys(
    phase: Phase,
    log: seq<Event>,
    mem: Requests,
    awaits: map<Id, Stage>,
    landed: set<Id>,
    incarnation: nat,
    proposedIn: map<Id, nat>,
    approvals: set<Approval>,
    started: seq<Approval>)

  datatype Step =
    | Boot
    | Escalate(id: Id, answer: Oracle)
    | Serve
    | Propose(id: Id)
    | Decide(id: Id, approve: bool, who: string, appended: bool)
    | Lapse(id: Id, appended: bool)
    | Claim(id: Id)
    | LogClaim(id: Id)
    | DropClaim(id: Id)
    | Submit(id: Id, out: ChainOutcome, lands: bool)
    | Record(id: Id, appended: bool)
    | GiveUp(id: Id)
    | Crash

  // The vault job of each request.
  type Refs = map<Id, string>

  predicate At(s: Sys, id: Id, stage: Stage) {
    s.phase.Serving? && id in s.awaits && s.awaits[id] == stage
  }

  // The oracle says an advance landed only where one did, for that job.
  predicate Honest(refs: Refs, s: Sys, id: Id, answer: Oracle) {
    answer == Landed ==> id in refs && exists j :: j in s.landed && j in refs && refs[j] == refs[id]
  }

  // The gates of an execution are the lifecycle's: here a claim may be made on an approved request
  // or not. A deadline found passed closes a request, durably where the owner's decision finds it.
  predicate Enabled(refs: Refs, s: Sys, t: Step) {
    match t
    case Boot => s.phase.Down?
    case Escalate(id, answer) => s.phase.Escalating? && id in s.phase.todo && Honest(refs, s, id, answer)
    case Serve => s.phase.Escalating? && s.phase.todo == {}
    case Propose(id) => s.phase.Serving? && id in refs && id !in s.proposedIn
    case Decide(id, _, who, _) => s.phase.Serving? && id in s.mem && s.mem[id].state == Pending && who != ""
    case Lapse(id, appended) =>
      s.phase.Serving? && id in s.mem && (s.mem[id].state == Pending || (s.mem[id].state == Approved && !appended))
    case Claim(id) => At(s, id, Waiting) && id in s.mem && s.mem[id].state == Approved && !s.mem[id].executed
    case LogClaim(id) => s.phase.Serving? && id in s.awaits && s.awaits[id].Claimed?
    case DropClaim(id) => s.phase.Serving? && id in s.awaits && s.awaits[id].Claimed?
    case Submit(id, out, lands) =>
      && s.phase.Serving? && id in s.awaits && s.awaits[id].Durable?
      && (out == Mined(true) ==> lands) && (out == Mined(false) || out == NotSubmitted ==> !lands)
    case Record(id, _) => s.phase.Serving? && id in s.awaits && s.awaits[id].Submitted?
    case GiveUp(id) => At(s, id, Waiting)
    case Crash => !s.phase.Down?
  }

  function Logged(s: Sys, e: Option<Event>): Sys {
    match e
    case Some(x) => s.(log := s.log + [x])
    case None => s
  }

  function Ended(s: Sys, id: Id): Sys {
    s.(awaits := s.awaits - {id})
  }

  function Do(refs: Refs, s: Sys, t: Step): Sys
    requires Enabled(refs, s, t)
  {
    match t
    case Boot =>
      var m := Replay(s.log);
      s.(phase := Escalating(m.Keys), mem := m, awaits := map[], incarnation := s.incarnation + 1)
    case Escalate(id, answer) =>
      var e := if id in s.mem then Escalation(s.log, id, s.mem[id], answer) else None;
      Logged(s, e).(phase := Escalating(s.phase.todo - {id}))
    case Serve => s.(phase := Serving)
    case Propose(id) =>
      s.(log := s.log + [Proposed(id, refs[id])],
         mem := s.mem[id := Request(refs[id], Pending, "", false)],
         awaits := s.awaits[id := Waiting],
         proposedIn := s.proposedIn[id := s.incarnation])
    case Decide(id, approve, who, appended) =>
      var s' := s.(mem := Apply(s.mem, Decided(id, approve, who)),
                   approvals := if approve then s.approvals + {Approval(id, s.incarnation, who)} else s.approvals);
      Logged(s', if appended then Some(Decided(id, approve, who)) else None)
    case Lapse(id, appended) =>
      Logged(s.(mem := Apply(s.mem, Lapsed(id))), if appended then Some(Lapsed(id)) else None)
    case Claim(id) =>
      s.(mem := s.mem[id := s.mem[id].(executed := true)], awaits := s.awaits[id := Claimed(s.mem[id].decidedBy)])
    case LogClaim(id) => Logged(s, Some(Executing(id))).(awaits := s.awaits[id := Durable(s.awaits[id].who)])
    case DropClaim(id) =>
      var m := if id in s.mem then s.mem[id := s.mem[id].(executed := false)] else s.mem;
      Ended(s, id).(mem := m)
    case Submit(id, out, lands) =>
      s.(awaits := s.awaits[id := Submitted(out)], landed := if lands then s.landed + {id} else s.landed,
         started := s.started + [Approval(id, s.incarnation, s.awaits[id].who)])
    case Record(id, appended) => Ended(Logged(s, if appended then OutcomeEvent(id, s.awaits[id].out) else None), id)
    case GiveUp(id) => Ended(s, id)
    case Crash => s.(phase := Down, mem := map[], awaits := map[])
  }

  predicate Initial(s: Sys) {
    s == Sys(Down, [], map[], map[], {}, 0, map[], {}, [])
  }

  ghost predicate Run(refs: Refs, states: seq<Sys>, steps: seq<Step>) {
    && |states| == |steps| + 1
    && Initial(states[0])
    && forall k :: 0 <= k < |steps| ==> Enabled(refs, states[k], steps[k]) && states[k + 1] == Do(refs, states[k], steps[k])
  }

  // ----- The invariant -----

  // What the log knows of a request it knows at all.
  ghost predicate LogInv(refs: Refs, log: seq<Event>, proposedIn: map<Id, nat>, landed: set<Id>) {
    && (forall id :: id in Replay(log) <==> id in proposedIn)
    && (forall id :: id in proposedIn ==> id in refs && Replay(log)[id].chainRef == refs[id])
    && (forall id :: Resolved(log, id) ==> id in proposedIn)
    && (forall id :: ExecutedCount(log, id) <= 1)
    && (forall id :: ExecutedCount(log, id) > 0 ==> Resolved(log, id))
    && landed <= proposedIn.Keys
  }

  // An await belongs to this incarnation, and its outcome is still to come.
  ghost predicate AwaitInv(s: Sys) {
    && (forall id :: id in s.awaits ==> id in s.proposedIn && s.proposedIn[id] == s.incarnation && !Resolved(s.log, id))
    && (forall id :: id in s.awaits && s.awaits[id] == Submitted(Mined(true)) ==> id in s.landed)
    && (s.awaits != map[] ==> s.phase.Serving?)
    && (forall id :: id in s.awaits && (s.awaits[id].Claimed? || s.awaits[id].Durable?) ==>
          Approval(id, s.incarnation, s.awaits[id].who) in s.approvals)
  }

  ghost predicate MemInv(s: Sys) {
    && (s.phase.Escalating? ==> s.mem == Replay(s.log))
    && (forall id :: id in s.mem ==> id in s.proposedIn)
    && (forall id :: id in s.mem && s.mem[id].state == Approved && s.proposedIn[id] == s.incarnation ==>
          Approval(id, s.incarnation, s.mem[id].decidedBy) in s.approvals)
  }

  // An advance starts in the incarnation that proposed it, on an approval given in it.
  ghost predicate StartInv(s: Sys) {
    && (forall k :: 0 <= k < |s.started| ==>
          var x := s.started[k]; x.id in s.proposedIn && s.proposedIn[x.id] == x.incarnation && x in s.approvals)
    && (forall id :: id in s.proposedIn ==> s.proposedIn[id] <= s.incarnation)
    && (forall a :: a in s.approvals ==> a.who != "")
  }

  ghost predicate Inv(refs: Refs, s: Sys) {
    LogInv(refs, s.log, s.proposedIn, s.landed) && AwaitInv(s) && MemInv(s) && StartInv(s)
  }

  // ----- One step at a time -----

  // An event the log may take: a proposal of a new request, or one about a known request, which
  // records an execution only where no outcome is.
  predicate Takes(refs: Refs, log: seq<Event>, proposedIn: map<Id, nat>, e: Event) {
    match e
    case Proposed(id, ref) => id in refs && ref == refs[id] && id !in proposedIn
    case Executed(id, _) => id in proposedIn && !Resolved(log, id)
    case _ => e.id in proposedIn
  }

  lemma AppendKeeps(refs: Refs, log: seq<Event>, proposedIn: map<Id, nat>, landed: set<Id>, e: Event, incarnation: nat)
    requires LogInv(refs, log, proposedIn, landed) && Takes(refs, log, proposedIn, e)
    ensures LogInv(refs, log + [e], if e.Proposed? then proposedIn[e.id := incarnation] else proposedIn, landed)
  {
    LogAppend(log, e);
  }

  lemma BootKeeps(refs: Refs, s: Sys)
    requires Inv(refs, s) && Enabled(refs, s, Boot)
    ensures Inv(refs, Do(refs, s, Boot))
  {
  }

  // One more event about a known request.
  lemma LoggedKeeps(refs: Refs, s: Sys, e: Event)
    requires Inv(refs, s) && !e.Proposed? && Takes(refs, s.log, s.proposedIn, e)
    requires s.phase.Escalating? ==> Apply(Replay(s.log), e) == Replay(s.log)
    requires IsOutcome(e, e.id) ==> e.id !in s.awaits
    ensures Inv(refs, s.(log := s.log + [e]))
  {
    LogAppend(s.log, e);
    AppendKeeps(refs, s.log, s.proposedIn, s.landed, e, 0);
  }

  // Changing memory and the awaits alone, without a new await, an unrecorded approval or a claim on
  // one.
  lemma MemoryKeeps(refs: Refs, s: Sys, mem: Requests, awaits: map<Id, Stage>)
    requires Inv(refs, s) && s.phase.Serving?
    requires forall id :: id in mem ==>
               id in s.mem && (mem[id].state == Approved && s.proposedIn[id] == s.incarnation ==>
                                 Approval(id, s.incarnation, mem[id].decidedBy) in s.approvals)
    requires forall id :: id in awaits ==>
               && id in s.awaits
               && (awaits[id] == s.awaits[id] ||
                   (s.awaits[id].Claimed? && awaits[id] == Durable(s.awaits[id].who)))
    ensures Inv(refs, s.(mem := mem, awaits := awaits))
  {
  }

  lemma TodoKeeps(refs: Refs, s: Sys, todo: set<Id>)
    requires Inv(refs, s) && s.phase.Escalating?
    ensures Inv(refs, s.(phase := Escalating(todo)))
  {
  }

  lemma EscalateKeeps(refs: Refs, s: Sys, id: Id, answer: Oracle)
    requires Inv(refs, s) && Enabled(refs, s, Escalate(id, answer))
    ensures Inv(refs, Do(refs, s, Escalate(id, answer)))
  {
    var todo := s.phase.todo - {id};
    if id in s.mem && Escalation(s.log, id, s.mem[id], answer).Some? {
      var e := Escalation(s.log, id, s.mem[id], answer).value;
      LoggedKeeps(refs, s, e);
      TodoKeeps(refs, s.(log := s.log + [e]), todo);
    } else {
      TodoKeeps(refs, s, todo);
    }
  }

  lemma ProposeMemory(s: Sys, e: Event, id: Id)
    requires e.Proposed? && e.id == id && MemInv(s) && AwaitInv(s) && StartInv(s) && s.phase.Serving?
    requires id !in s.proposedIn && !Resolved(s.log, id)
    ensures var s' := s.(log := s.log + [e], mem := s.mem[id := Request(e.chainRef, Pending, "", false)],
                         awaits := s.awaits[id := Waiting], proposedIn := s.proposedIn[id := s.incarnation]);
            MemInv(s') && AwaitInv(s') && StartInv(s')
  {
    LogAppend(s.log, e);
  }

  lemma ProposeKeeps(refs: Refs, s: Sys, id: Id)
    requires Inv(refs, s) && Enabled(refs, s, Propose(id))
    ensures Inv(refs, Do(refs, s, Propose(id)))
  {
    var e := Proposed(id, refs[id]);
    AppendKeeps(refs, s.log, s.proposedIn, s.landed, e, s.incarnation);
    ProposeMemory(s, e, id);
  }

  lemma DecideKeeps(refs: Refs, s: Sys, id: Id, approve: bool, who: string, appended: bool)
    requires Inv(refs, s) && Enabled(refs, s, Decide(id, approve, who, appended))
    ensures Inv(refs, Do(refs, s, Decide(id, approve, who, appended)))
  {
    if approve {
      ApprovalKeeps(refs, s, Approval(id, s.incarnation, who));
      DecidedKeeps(refs, s.(approvals := s.approvals + {Approval(id, s.incarnation, who)}), id, approve, who, appended);
    } else {
      DecidedKeeps(refs, s, id, approve, who, appended);
    }
  }

  lemma DecidedKeeps(refs: Refs, s: Sys, id: Id, approve: bool, who: string, appended: bool)
    requires Inv(refs, s) && s.phase.Serving? && id in s.mem
    requires approve ==> Approval(id, s.incarnation, who) in s.approvals
    ensures var e := Decided(id, approve, who);
            Inv(refs, Logged(s.(mem := Apply(s.mem, e)), if appended then Some(e) else None))
  {
    VerdictKeeps(refs, s, id, approve, who);
    if appended {
      LoggedKeeps(refs, s.(mem := Apply(s.mem, Decided(id, approve, who))), Decided(id, approve, who));
    }
  }

  lemma VerdictKeeps(refs: Refs, s: Sys, id: Id, approve: bool, who: string)
    requires Inv(refs, s) && s.phase.Serving? && id in s.mem
    requires approve ==> Approval(id, s.incarnation, who) in s.approvals
    ensures Inv(refs, s.(mem := Apply(s.mem, Decided(id, approve, who))))
  {
    MemoryKeeps(refs, s, Apply(s.mem, Decided(id, approve, who)), s.awaits);
  }

  lemma ApprovalKeeps(refs: Refs, s: Sys, a: Approval)
    requires Inv(refs, s) && a.who != ""
    ensures Inv(refs, s.(approvals := s.approvals + {a}))
  {
  }

  lemma LapseKeeps(refs: Refs, s: Sys, id: Id, appended: bool)
    requires Inv(refs, s) && Enabled(refs, s, Lapse(id, appended))
    ensures Inv(refs, Do(refs, s, Lapse(id, appended)))
  {
    if appended { LoggedKeeps(refs, s, Lapsed(id)); }
    MemoryKeeps(refs, if appended then s.(log := s.log + [Lapsed(id)]) else s, Apply(s.mem, Lapsed(id)), s.awaits);
  }

  lemma LogClaimKeeps(refs: Refs, s: Sys, id: Id)
    requires Inv(refs, s) && Enabled(refs, s, LogClaim(id))
    ensures Inv(refs, Do(refs, s, LogClaim(id)))
  {
    LoggedKeeps(refs, s, Executing(id));
    MemoryKeeps(refs, s.(log := s.log + [Executing(id)]), s.mem, s.awaits[id := Durable(s.awaits[id].who)]);
  }

  lemma RecordKeeps(refs: Refs, s: Sys, id: Id, appended: bool)
    requires Inv(refs, s) && Enabled(refs, s, Record(id, appended))
    ensures Inv(refs, Do(refs, s, Record(id, appended)))
  {
    var e := OutcomeEvent(id, s.awaits[id].out);
    MemoryKeeps(refs, s, s.mem, s.awaits - {id});
    if appended && e.Some? {
      LoggedKeeps(refs, s.(awaits := s.awaits - {id}), e.value);
    }
  }

  lemma QuietKeeps(refs: Refs, s: Sys, t: Step)
    requires Inv(refs, s) && Enabled(refs, s, t) && (t.Serve? || t.Claim? || t.DropClaim? || t.GiveUp? || t.Crash?)
    ensures Inv(refs, Do(refs, s, t))
  {
  }

  lemma SubmitKeeps(refs: Refs, s: Sys, id: Id, out: ChainOutcome, lands: bool)
    requires Inv(refs, s) && Enabled(refs, s, Submit(id, out, lands))
    ensures Inv(refs, Do(refs, s, Submit(id, out, lands)))
  {
  }

  lemma StepKeeps(refs: Refs, s: Sys, t: Step)
    requires Inv(refs, s) && Enabled(refs, s, t)
    ensures Inv(refs, Do(refs, s, t))
  {
    match t {
      case Boot => BootKeeps(refs, s);
      case Escalate(id, answer) => EscalateKeeps(refs, s, id, answer);
      case Propose(id) => ProposeKeeps(refs, s, id);
      case Decide(id, approve, who, appended) => DecideKeeps(refs, s, id, approve, who, appended);
      case Lapse(id, appended) => LapseKeeps(refs, s, id, appended);
      case LogClaim(id) => LogClaimKeeps(refs, s, id);
      case Submit(id, out, lands) => SubmitKeeps(refs, s, id, out, lands);
      case Record(id, appended) => RecordKeeps(refs, s, id, appended);
      case _ => QuietKeeps(refs, s, t);
    }
  }

  lemma {:induction false} RunInv(refs: Refs, states: seq<Sys>, steps: seq<Step>)
    requires Run(refs, states, steps)
    ensures Inv(refs, states[|steps|])
  {
    if steps != [] {
      var n := |steps| - 1;
      RunInv(refs, states[..n + 1], steps[..n]);
      assert states[..n + 1][n] == states[n];
      StepKeeps(refs, states[n], steps[n]);
    }
  }

  // ----- Main results -----

  lemma {:induction false} ProposedBefore(refs: Refs, states: seq<Sys>, steps: seq<Step>, id: Id) returns (j: nat)
    requires Run(refs, states, steps) && id in states[|steps|].proposedIn
    ensures j < |steps| && steps[j] == Propose(id) && states[j].incarnation == states[|steps|].proposedIn[id]
  {
    var n := |steps| - 1;
    if id in states[n].proposedIn {
      assert states[..n + 1][n] == states[n];
      j := ProposedBefore(refs, states[..n + 1], steps[..n], id);
    } else {
      j := n;
    }
  }

  predicate Approves(t: Step, id: Id, who: string) {
    t.Decide? && t.id == id && t.approve && t.who == who
  }

  lemma HistoryStep(refs: Refs, s: Sys, t: Step, a: Approval)
    requires MemInv(s) && Enabled(refs, s, t)
    ensures var s' := Do(refs, s, t);
            && (a in s'.approvals && a !in s.approvals ==>
                  Approves(t, a.id, a.who) && a.incarnation == s.incarnation && a.id in s.proposedIn)
            && (a.id in s.proposedIn ==> a.id in s'.proposedIn && s'.proposedIn[a.id] == s.proposedIn[a.id])
  {
  }

  lemma {:induction false} ApprovedBefore(refs: Refs, states: seq<Sys>, steps: seq<Step>, a: Approval) returns (k: nat)
    requires Run(refs, states, steps) && a in states[|steps|].approvals
    ensures k < |steps| && Approves(steps[k], a.id, a.who) && states[k].incarnation == a.incarnation
    ensures a.id in states[k].proposedIn && a.id in states[|steps|].proposedIn
    ensures states[k].proposedIn[a.id] == states[|steps|].proposedIn[a.id]
  {
    var n := |steps| - 1;
    var s := states[n];
    assert states[..n + 1][n] == s;
    RunInv(refs, states[..n + 1], steps[..n]);
    HistoryStep(refs, s, steps[n], a);
    k := n;
    if a in s.approvals {
      k := ApprovedBefore(refs, states[..n + 1], steps[..n], a);
    }
  }

  // Proposed, which is pending, and then approved by a named decider, all in one process.
  ghost predicate ApprovedHere(states: seq<Sys>, steps: seq<Step>, x: Approval)
    requires |states| > |steps|
  {
    exists j, k :: 0 <= j < k < |steps| && steps[j] == Propose(x.id) && Approves(steps[k], x.id, x.who)
                   && states[j].incarnation == x.incarnation && states[k].incarnation == x.incarnation
  }

  // Over any run with any number of restarts: the flow starts an advance only in the incarnation
  // that proposed it, and only after a named decider approved it there, and records it executed at
  // most once, whether from a receipt or the chain.
  lemma NeverResumedNorRepeated(refs: Refs, states: seq<Sys>, steps: seq<Step>)
    requires Run(refs, states, steps)
    ensures var s := states[|steps|];
            && (forall k :: 0 <= k < |s.started| ==>
                  var x := s.started[k];
                  x.who != "" && x.id in s.proposedIn && s.proposedIn[x.id] == x.incarnation && ApprovedHere(states, steps, x))
            && forall id :: ExecutedCount(s.log, id) <= 1
  {
    RunInv(refs, states, steps);
    var s := states[|steps|];
    forall i | 0 <= i < |s.started| ensures ApprovedHere(states, steps, s.started[i]) {
      var x := s.started[i];
      var k := ApprovedBefore(refs, states, steps, x);
      assert states[..k + 1][k] == states[k];
      var j := ProposedBefore(refs, states[..k + 1], steps[..k], x.id);
      assert steps[j] == steps[..k][j] && states[j] == states[..k + 1][j];
    }
  }

  // Every execution the log records is of a request whose advance landed.
  ghost predicate Truthful(s: Sys) {
    forall id :: ExecutedCount(s.log, id) > 0 ==> id in s.landed
  }

  // No two requests draw on one vault job.
  predicate Unshared(refs: Refs) {
    forall a, b :: a in refs && b in refs && refs[a] == refs[b] && refs[a] != "" ==> a == b
  }

  lemma TruthLogged(log: seq<Event>, e: Event, landed: set<Id>)
    requires forall id :: ExecutedCount(log, id) > 0 ==> id in landed
    requires e.Executed? ==> e.id in landed
    ensures forall id :: ExecutedCount(log + [e], id) > 0 ==> id in landed
  {
    LogAppend(log, e);
  }

  // With every job drawn on once, the chain's answer for a job is about the request.
  lemma AnswerIsOwn(refs: Refs, s: Sys, id: Id, answer: Oracle)
    requires Unshared(refs) && Inv(refs, s) && Enabled(refs, s, Escalate(id, answer)) && id in s.mem
    ensures var e := Escalation(s.log, id, s.mem[id], answer); e.Some? && e.value.Executed? ==> id in s.landed && e.value.id == id
  {
  }

  // What a step appends, if anything.
  function Appended(refs: Refs, s: Sys, t: Step): Option<Event>
    requires Enabled(refs, s, t)
  {
    match t
    case Escalate(id, answer) => if id in s.mem then Escalation(s.log, id, s.mem[id], answer) else None
    case Propose(id) => Some(Proposed(id, refs[id]))
    case Decide(id, approve, who, appended) => if appended then Some(Decided(id, approve, who)) else None
    case Lapse(id, appended) => if appended then Some(Lapsed(id)) else None
    case LogClaim(id) => Some(Executing(id))
    case Record(id, appended) => if appended then OutcomeEvent(id, s.awaits[id].out) else None
    case _ => None
  }

  lemma AppendedFacts(refs: Refs, s: Sys, t: Step)
    requires Enabled(refs, s, t)
    ensures var s', e := Do(refs, s, t), Appended(refs, s, t);
            s'.log == (match e case Some(x) => s.log + [x] case None => s.log) && s.landed <= s'.landed
  {
  }

  lemma AppendedIsTrue(refs: Refs, s: Sys, t: Step)
    requires Unshared(refs) && Inv(refs, s) && Enabled(refs, s, t)
    ensures var e := Appended(refs, s, t); e.Some? && e.value.Executed? ==> e.value.id in s.landed
  {
    if t.Escalate? && t.id in s.mem { AnswerIsOwn(refs, s, t.id, t.answer); }
  }

  lemma TruthStep(refs: Refs, s: Sys, t: Step)
    requires Unshared(refs) && Inv(refs, s) && Truthful(s) && Enabled(refs, s, t)
    ensures Truthful(Do(refs, s, t))
  {
    AppendedFacts(refs, s, t);
    AppendedIsTrue(refs, s, t);
    var e := Appended(refs, s, t);
    if e.Some? {
      TruthLogged(s.log, e.value, s.landed);
    }
  }

  lemma {:induction false} RecordsAreTrue(refs: Refs, states: seq<Sys>, steps: seq<Step>)
    requires Unshared(refs) && Run(refs, states, steps)
    ensures Truthful(states[|steps|])
  {
    if steps != [] {
      var n := |steps| - 1;
      RecordsAreTrue(refs, states[..n + 1], steps[..n]);
      RunInv(refs, states[..n + 1], steps[..n]);
      assert states[..n + 1][n] == states[n];
      TruthStep(refs, states[n], steps[n]);
    }
  }
}
