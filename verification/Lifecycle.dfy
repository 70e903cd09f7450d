// The lifecycle object: the request map and the log updated step by step, each method proved
// against the critical sections of module Approval (daemon/internal/approval/lifecycle.go).
module Lifecycle {
  import opened Wrappers
  import opened Intents
  import opened Approval
  import Policy

  datatype Grant = Grant(intent: Intent, requestId: Id)

  // What the world answers during one Submit: the kill switch, the active policy version, whether
  // the nonce insert, the two appends and the budget hold succeed, and the engine's verdict.
  datatype Intake = Intake(
    frozen: bool,
    version: string,
    nonceStored: bool,
    outcome: Policy.Outcome,
    evaluationLogged: bool,
    held: bool,
    requestLogged: bool)

  datatype SubmitResult =
    | RefusedFrozen
    | NonceReplayed
    | NonceError
    | BadAlternativeLink
    | AuditFailed
    | Denied
    | HoldRefused
    | RequestNotLogged
    | WrongKind
    | Opened(id: Id)

  // What Execute meets: the clock, the version, the kill switch twice, the append of the claim,
  // the executor's verdict and the append after it.
  datatype Gates = Gates(
    now: Instant,
    version: string,
    frozenAtEntry: bool,
    frozenAtClaim: bool,
    claimLogged: bool,
    executorOk: bool,
    outcomeLogged: bool)

  datatype ExecuteResult =
    | Refused(why: Admission)
    | NoDurableClaim
    | ExecutorFailed
    | AuditGap
    | Completed

  datatype GateOp =
    | AcquireOrg(orgId: string)
    | AcquireJob(jobId: string)
    | ReleaseJob
    | ReleaseOrg
    | Notify(request: Request)

  class Lifecycle {
    const hash: Intent -> string
    const ident: Intent -> Id

    var requests: Requests
    var log: seq<Event>
    var nonces: set<string>
    // Every gate operation and owner notification so far, in order.
    var gates: seq<GateOp>
    // Every grant an executor was started with, in order.
    var grants: seq<Grant>

    // A decision channel is open only on a pending request, so it is closed at most once.
    ghost predicate Valid()
      reads this
    {
      forall id :: id in requests && requests[id].waiting ==> requests[id].state == Pending
    }

    // A fresh process over a surviving log and nonce table.
    constructor (hash: Intent -> string, ident: Intent -> Id, log: seq<Event>, nonces: set<string>)
      ensures Valid()
      ensures this.hash == hash && this.ident == ident
      ensures this.log == log && this.nonces == nonces && requests == map[] && gates == [] && grants == []
    {
      this.hash := hash;
      this.ident := ident;
      this.log := log;
      this.nonces := nonces;
      requests := map[];
      gates := [];
      grants := [];
    }

    method AppendEvent(e: Event, ok: bool)
      modifies this`log
      ensures log == if ok then old(log) + [e] else old(log)
    {
      if ok {
        log := log + [e];
      }
    }

    // A waiter's channel is still open exactly when the request is pending and this process
    // opened it; anything else answers with a closed channel, so no waiter hangs.
    method DecisionSignal(id: Id) returns (open: bool)
      requires Valid()
      ensures open <==> id in requests && requests[id].waiting
    {
      open := id in requests && requests[id].waiting && requests[id].state == Pending;
    }

    method UnlockGates(orgHeld: bool, jobHeld: bool) returns (orgStill: bool, jobStill: bool)
      modifies this`gates
      ensures !orgStill && !jobStill
      ensures gates == old(gates) + (if jobHeld then [ReleaseJob] else []) + (if orgHeld then [ReleaseOrg] else [])
    {
      if jobHeld {
        gates := gates + [ReleaseJob];
      }
      if orgHeld {
        gates := gates + [ReleaseOrg];
      }
      return false, false;
    }

    // The request opened for an intent: approved by the engine with nobody waiting, or pending and
    // undecided with its submitter waiting; bound to the intent as evaluated, unclaimed.
    predicate Opens(q: Request, presented: Intent, world: Intake, auto: bool) {
      && q.intent == presented.(policyVersion := world.version) && q.hash == hash(q.intent)
      && q.expiresAt == presented.expiresAt && !q.executed && q.born == q.state
      && if auto then q.state == Approved && q.decidedBy == "policy-engine" && !q.waiting
         else q.state == Pending && q.decidedBy == "" && q.waiting
    }

    // The request Submit opens for a non-deny verdict.
    function Opening(intent: Intent, outcome: Policy.Outcome): Request
      requires outcome != Policy.Deny
    {
      OpenRequest(hash(intent), intent, outcome == Policy.AutoApprove)
    }

    ghost predicate LinkOk(intent: Intent)
      reads this
    {
      intent.alternativeTo == "" ||
      (&& intent.alternativeTo in requests
       && requests[intent.alternativeTo].state == AlternativeRequested
       && requests[intent.alternativeTo].intent.jobId == intent.jobId)
    }

    // How a Submit ends: the first obstacle in order, or the opened request.
    static function Verdict(world: Intake, nonceUsed: bool, linked: bool, id: Id): SubmitResult {
      if world.frozen then RefusedFrozen
      else if nonceUsed then NonceReplayed
      else if !world.nonceStored then NonceError
      else if !linked then BadAlternativeLink
      else if !world.evaluationLogged then AuditFailed
      else if world.outcome == Policy.Deny then Denied
      else if !world.held then HoldRefused
      else if !world.requestLogged then RequestNotLogged
      else Opened(id)
    }

    // The events a Submit that ended in `r` leaves behind.
    function Trail(intent: Intent, outcome: Policy.Outcome, r: SubmitResult): seq<Event> {
      if r.RefusedFrozen? || r.NonceReplayed? || r.NonceError? || r.BadAlternativeLink? || r.AuditFailed? || r.WrongKind? then []
      else if r.Denied? || r.HoldRefused? || outcome == Policy.Deny then [Evaluated(intent.intentId)]
      else if r.RequestNotLogged? then
        [Evaluated(intent.intentId), Reserved(ident(intent), WholeSeconds(intent.expiresAt))]
      else
        var req := Opening(intent, outcome);
        [Evaluated(intent.intentId), Reserved(ident(intent), WholeSeconds(intent.expiresAt)),
         Requested(ident(intent), req.hash, intent, req.born, req.decidedBy)]
    }

    // Its gate operations and notification.
    function Ceremony(intent: Intent, outcome: Policy.Outcome, r: SubmitResult): seq<GateOp> {
      if r.RefusedFrozen? || r.NonceReplayed? || r.NonceError? || r.BadAlternativeLink? || r.WrongKind? then []
      else
        [AcquireOrg(intent.orgId), AcquireJob(intent.jobId), ReleaseJob, ReleaseOrg]
        + if r.Opened? && outcome == Policy.HumanApprovalRequired then [Notify(Opening(intent, outcome))] else []
    }

    // What a Submit that ended in `r` means, obstacle by obstacle.
    static lemma VerdictExactly(world: Intake, nonceUsed: bool, linked: bool, id: Id)
      ensures var r := Verdict(world, nonceUsed, linked, id);
              && (r.Opened? <==>
                    && !world.frozen && !nonceUsed && world.nonceStored && linked && world.evaluationLogged
                    && world.outcome != Policy.Deny && world.held && world.requestLogged)
              && (r.Opened? ==> r.id == id)
              && (r.BadAlternativeLink? <==> !world.frozen && !nonceUsed && world.nonceStored && !linked)
              && (r.Denied? <==>
                    && !world.frozen && !nonceUsed && world.nonceStored && linked && world.evaluationLogged
                    && world.outcome == Policy.Deny)
              && (r.RefusedFrozen? <==> world.frozen) && (r.NonceReplayed? <==> !world.frozen && nonceUsed)
    {
    }

    // Intake. Whatever the world answers, the two gates are taken org first and each released
    // exactly once, in reverse, before the owner is notified; a request becomes visible only
    // after it and its hold are durable; a frozen scope burns no nonce.
    method Submit(presented: Intent, world: Intake) returns (r: SubmitResult)
      requires Valid()
      modifies this`requests, this`log, this`nonces, this`gates
      ensures Valid()
      // A request opens exactly when nothing stands in its way, as its own verdict says.
      ensures r.Opened? <==>
                && !world.frozen && presented.nonce !in old(nonces) && world.nonceStored && old(LinkOk(presented))
                && world.evaluationLogged && world.outcome != Policy.Deny && world.held && world.requestLogged
      ensures r.BadAlternativeLink? <==>
                !world.frozen && presented.nonce !in old(nonces) && world.nonceStored && !old(LinkOk(presented))
      ensures r.Opened? ==> r.id in requests && Opens(requests[r.id], presented, world, world.outcome == Policy.AutoApprove)
      // The owner is told exactly of what waits for one; the log has the request after its hold.
      ensures r.Opened? ==>
                var q := requests[r.id];
                && log == old(log) + [Evaluated(presented.intentId), Reserved(r.id, WholeSeconds(presented.expiresAt)),
                                      Requested(r.id, q.hash, q.intent, q.state, q.decidedBy)]
                && gates == old(gates)
                   + [AcquireOrg(presented.orgId), AcquireJob(presented.jobId), ReleaseJob, ReleaseOrg]
                   + if world.outcome == Policy.HumanApprovalRequired then [Notify(q)] else []
      // Refused before the gates it takes none and logs nothing; refused inside them it hands them
      // back, tells nobody, and leaves what it had already made durable.
      ensures r.RefusedFrozen? || r.NonceReplayed? || r.NonceError? || r.BadAlternativeLink? ==>
                gates == old(gates) && log == old(log)
      ensures r.AuditFailed? || r.Denied? || r.HoldRefused? || r.RequestNotLogged? ==>
                && gates == old(gates) + [AcquireOrg(presented.orgId), AcquireJob(presented.jobId), ReleaseJob, ReleaseOrg]
                && log == old(log)
                   + (if r.AuditFailed? then [] else [Evaluated(presented.intentId)])
                   + (if r.RequestNotLogged?
                      then [Reserved(ident(presented.(policyVersion := world.version)), WholeSeconds(presented.expiresAt))]
                      else [])
      ensures r == Verdict(world, presented.nonce in old(nonces), old(LinkOk(presented)),
                           ident(presented.(policyVersion := world.version)))
      ensures nonces == old(nonces)
                        + if r.RefusedFrozen? || r.NonceReplayed? || r.NonceError? then {} else {presented.nonce}
      ensures var intent := presented.(policyVersion := world.version);
              && log == old(log) + Trail(intent, world.outcome, r)
              && gates == old(gates) + Ceremony(intent, world.outcome, r)
              && (r.Opened? ==> requests == old(requests)[r.id := Opening(intent, world.outcome)])
              && (!r.Opened? ==> requests == old(requests))
    {
      VerdictExactly(world, presented.nonce in nonces, LinkOk(presented), ident(presented.(policyVersion := world.version)));
      if world.frozen {
        return RefusedFrozen;
      }
      var intent := presented.(policyVersion := world.version);
      if intent.nonce in nonces {
        return NonceReplayed;
      }
      if !world.nonceStored {
        return NonceError;
      }
      nonces := nonces + {intent.nonce};
      if intent.alternativeTo != "" {
        if intent.alternativeTo !in requests
          || requests[intent.alternativeTo].state != AlternativeRequested
          || requests[intent.alternativeTo].intent.jobId != intent.jobId
        {
          return BadAlternativeLink;
        }
      }
      r := UnderGates(intent, world);
      if r.Opened? {
        OpenedLeaves(presented, world);
      }
    }

    // What an opened request leaves in the log and at the gates, and how it stands.
    lemma OpenedLeaves(presented: Intent, world: Intake)
      requires world.outcome != Policy.Deny
      ensures var intent := presented.(policyVersion := world.version);
              var q, r := Opening(intent, world.outcome), Opened(ident(intent));
              && Opens(q, presented, world, world.outcome == Policy.AutoApprove)
              && Trail(intent, world.outcome, r) ==
                 [Evaluated(presented.intentId), Reserved(r.id, WholeSeconds(presented.expiresAt)),
                  Requested(r.id, q.hash, q.intent, q.state, q.decidedBy)]
              && Ceremony(intent, world.outcome, r) ==
                 [AcquireOrg(presented.orgId), AcquireJob(presented.jobId), ReleaseJob, ReleaseOrg]
                 + if world.outcome == Policy.HumanApprovalRequired then [Notify(q)] else []
    {
    }

    // The critical section of Submit, between taking the two gates and handing them back.
    method UnderGates(intent: Intent, world: Intake) returns (r: SubmitResult)
      requires Valid() && !world.frozen && world.nonceStored
      modifies this`requests, this`log, this`gates
      ensures Valid()
      ensures r == Verdict(world, false, true, ident(intent))
      ensures log == old(log) + Trail(intent, world.outcome, r)
      ensures gates == old(gates) + Ceremony(intent, world.outcome, r)
      ensures requests == if r.Opened? then old(requests)[r.id := Opening(intent, world.outcome)] else old(requests)
    {
      gates := gates + [AcquireOrg(intent.orgId)];
      gates := gates + [AcquireJob(intent.jobId)];
      var orgHeld, jobHeld;
      r, orgHeld, jobHeld := Evaluate(intent, world);
      // The deferred unlock: the safety net for the early returns.
      orgHeld, jobHeld := UnlockGates(orgHeld, jobHeld);
    }

    // The part of Submit under both gates. It hands the gates back still held on an early return
    // and releases them itself, before notifying, when the request opens.
    method Evaluate(intent: Intent, world: Intake) returns (r: SubmitResult, orgHeld: bool, jobHeld: bool)
      requires Valid() && !world.frozen && world.nonceStored
      modifies this`requests, this`log, this`gates
      ensures Valid()
      ensures r == Verdict(world, false, true, ident(intent))
      ensures log == old(log) + Trail(intent, world.outcome, r)
      ensures r.Opened? ==>
                && requests == old(requests)[r.id := Opening(intent, world.outcome)]
                && !orgHeld && !jobHeld
                && gates == old(gates) + [ReleaseJob, ReleaseOrg]
                   + if world.outcome == Policy.HumanApprovalRequired then [Notify(Opening(intent, world.outcome))] else []
      ensures !r.Opened? ==> requests == old(requests) && orgHeld && jobHeld && gates == old(gates)
    {
      orgHeld, jobHeld := true, true;
      AppendEvent(Evaluated(intent.intentId), world.evaluationLogged);
      if !world.evaluationLogged {
        return AuditFailed, orgHeld, jobHeld;
      }
      if world.outcome == Policy.Deny {
        return Denied, orgHeld, jobHeld;
      }
      var id := ident(intent);
      var req := Opening(intent, world.outcome);
      AppendEvent(Reserved(id, WholeSeconds(intent.expiresAt)), world.held);
      if !world.held {
        return HoldRefused, orgHeld, jobHeld;
      }
      AppendEvent(Requested(id, req.hash, intent, req.born, req.decidedBy), world.requestLogged);
      if !world.requestLogged {
        return RequestNotLogged, orgHeld, jobHeld;
      }
      requests := requests[id := req];
      orgHeld, jobHeld := UnlockGates(orgHeld, jobHeld);
      if req.state == Pending {
        gates := gates + [Notify(req)];
      }
      return Opened(id), orgHeld, jobHeld;
    }

    method Decide(id: Id, kind: Option<Decision>, who: string, now: Instant, appended: bool)
      returns (r: DecideResult)
      requires Valid()
      modifies this`requests, this`log
      ensures Valid()
      ensures var (result, after, events) := DecideEffect(old(requests), id, kind, who, now, appended);
              r == result && requests == after && log == old(log) + events
      // A decision that applies makes the request what it is named for.
      ensures id in old(requests) && old(requests)[id].state == Pending && kind.Some? && who != ""
              && now < old(requests)[id].expiresAt ==>
                && id in requests && requests[id].decidedBy == who && !requests[id].waiting
                && (requests[id].state == Approved <==> kind.value == Approve)
                && (requests[id].state == Rejected <==> kind.value == Reject)
                && (requests[id].state == AlternativeRequested <==> kind.value == RequestAlternative)
                && log == old(log) + if appended then [Event.Decided(id, kind.value, who)] else []
    {
      if who == "" {
        return NoDecider;
      }
      if id !in requests {
        return UnknownRequest;
      }
      if kind.None? {
        return UnknownKind;
      }
      var req := requests[id];
      if req.state == Target(kind.value) && req.decidedBy == who {
        return Repeated;
      }
      if req.state != Pending {
        return AlreadyDecided;
      }
      if now >= req.expiresAt {
        requests := requests[id := req.(state := Expired, waiting := false)];
        AppendEvent(Lapsed(id), appended);
        return if appended then TooLate else AppendFailed;
      }
      requests := requests[id := req.(state := Target(kind.value), decidedBy := who, waiting := false)];
      AppendEvent(Event.Decided(id, kind.value, who), appended);
      return if appended then Recorded else AppendFailed;
    }

    // The only path to an executor: it starts exactly once, with the presented intent, when every
    // gate passed and the claim is durable; a failed claim append leaves the request as it was.
    method Execute(intent: Intent, id: Id, g: Gates) returns (r: ExecuteResult)
      requires Valid()
      modifies this`requests, this`log, this`grants
      ensures Valid()
      ensures var (why, after) :=
                Admit(old(requests), id, hash(intent), g.now, g.version, g.frozenAtEntry, g.frozenAtClaim);
              && (why != Admitted ==> r == Refused(why) && requests == after && log == old(log) && grants == old(grants))
              && (why == Admitted && !g.claimLogged ==>
                  r == NoDurableClaim && requests == old(requests) && log == old(log) && grants == old(grants))
              && (why == Admitted && g.claimLogged ==>
                  && requests == after
                  && grants == old(grants) + [Grant(intent, id)]
                  && log == old(log) + [Executing(id)] + (if g.outcomeLogged then [Finished(id, g.executorOk)] else [])
                  && r == if !g.executorOk then ExecutorFailed else if g.outcomeLogged then Completed else AuditGap)
    {
      var why;
      why := Claim(intent, id, g);
      if why != Admitted {
        return Refused(why);
      }
      AppendEvent(Executing(id), g.claimLogged);
      if !g.claimLogged {
        AdmissionIsExact(old(requests), id, hash(intent), g.now, g.version, g.frozenAtEntry, g.frozenAtClaim);
        requests := Unclaim(requests, id);
        return NoDurableClaim;
      }
      grants := grants + [Grant(intent, id)];
      if !g.executorOk {
        AppendEvent(Finished(id, false), g.outcomeLogged);
        return ExecutorFailed;
      }
      AppendEvent(Finished(id, true), g.outcomeLogged);
      return if g.outcomeLogged then Completed else AuditGap;
    }

    // The section of Execute under the mutex.
    method Claim(intent: Intent, id: Id, g: Gates) returns (why: Admission)
      requires Valid()
      modifies this`requests
      ensures Valid()
      ensures (why, requests) ==
              Admit(old(requests), id, hash(intent), g.now, g.version, g.frozenAtEntry, g.frozenAtClaim)
    {
      if id !in requests {
        return Unknown;
      }
      if g.frozenAtEntry {
        return Frozen;
      }
      var req := requests[id];
      if hash(intent) != req.hash {
        return HashMismatch;
      }
      match req.state {
        case Approved =>
        case Pending => return NotApproved;
        case Expired => return WindowElapsed;
        case _ => return NotApproved;
      }
      if g.now >= req.expiresAt {
        requests := requests[id := req.(state := Expired, waiting := false)];
        return WindowElapsed;
      }
      if req.intent.policyVersion != g.version {
        return PolicyChanged;
      }
      if req.executed {
        return AlreadyExecuted;
      }
      if g.frozenAtClaim {
        return Frozen;
      }
      requests := requests[id := req.(executed := true)];
      return Admitted;
    }

    // How a SubmitAdvance ends.
    static function AdvanceVerdict(world: Intake, kind: string, nonceUsed: bool, id: Id): SubmitResult {
      if kind != ADVANCE then WrongKind
      else if world.frozen then RefusedFrozen
      else if nonceUsed then NonceReplayed
      else if !world.nonceStored then NonceError
      else if !world.requestLogged then RequestNotLogged
      else Opened(id)
    }

    // The advance door: no evaluation, no gates and no hold, and the request is always born pending.
    method SubmitAdvance(presented: Intent, world: Intake) returns (r: SubmitResult)
      requires Valid()
      modifies this`requests, this`log, this`nonces, this`gates
      ensures Valid()
      ensures r.Opened? <==>
                && presented.kind == ADVANCE && !world.frozen && presented.nonce !in old(nonces)
                && world.nonceStored && world.requestLogged
      ensures r.Opened? ==> r.id in requests && Opens(requests[r.id], presented, world, false)
      ensures r == AdvanceVerdict(world, presented.kind, presented.nonce in old(nonces),
                                  ident(presented.(policyVersion := world.version)))
      ensures nonces == old(nonces) + if r.Opened? || r.RequestNotLogged? then {presented.nonce} else {}
      ensures var intent := presented.(policyVersion := world.version);
              var req := Opening(intent, Policy.HumanApprovalRequired);
              && (r.Opened? ==>
                  && requests == old(requests)[r.id := req]
                  && log == old(log) + [Requested(r.id, req.hash, intent, Pending, "")]
                  && gates == old(gates) + [Notify(req)])
              && (!r.Opened? ==> requests == old(requests) && log == old(log) && gates == old(gates))
    {
      if presented.kind != ADVANCE {
        return WrongKind;
      }
      if world.frozen {
        return RefusedFrozen;
      }
      var intent := presented.(policyVersion := world.version);
      if intent.nonce in nonces {
        return NonceReplayed;
      }
      if !world.nonceStored {
        return NonceError;
      }
      nonces := nonces + {intent.nonce};
      var id := ident(intent);
      var req := Opening(intent, Policy.HumanApprovalRequired);
      AppendEvent(Requested(id, req.hash, intent, req.born, req.decidedBy), world.requestLogged);
      if !world.requestLogged {
        return RequestNotLogged;
      }
      requests := requests[id := req];
      gates := gates + [Notify(req)];
      return Opened(id);
    }

    // One row of the fold.
    method Fold(e: Event)
      requires !e.Unreadable?
      modifies this`requests
      ensures requests == Apply(old(requests), e)
    {
      match e {
        case Requested(id, _, _, _, _) =>
          if id != "" {
            requests := requests[id := Approval.Opened(e)];
          }
        case Decided(id, kind, who) =>
          if id != "" && id in requests {
            requests := requests[id := requests[id].(state := Target(kind), decidedBy := who)];
          }
        case Lapsed(id) =>
          if id != "" && id in requests {
            requests := requests[id := requests[id].(state := Expired)];
          }
        case Executing(id) =>
          if id != "" && id in requests {
            requests := requests[id := requests[id].(executed := true)];
          }
        case _ =>
      }
    }

    // Boot: fold the log into the map. An unreadable event stops the fold with an error.
    method Recover() returns (ok: bool)
      requires forall id :: id in requests ==> !requests[id].waiting
      modifies this`requests
      ensures Valid() && forall id :: id in requests ==> !requests[id].waiting
      ensures ok <==> Unreadable !in log
      ensures ok ==> requests == ReplayOver(old(requests), log)
    {
      var i := 0;
      while i < |log|
        invariant 0 <= i <= |log|
        invariant forall id :: id in requests ==> !requests[id].waiting
        invariant Unreadable !in log[..i]
        invariant requests == ReplayOver(old(requests), log[..i])
      {
        var e := log[i];
        assert log[..i + 1] == log[..i] + [e];
        assert log[..i + 1][..i] == log[..i];
        if e.Unreadable? {
          assert e in log;
          return false;
        }
        Fold(e);
        i := i + 1;
      }
      assert log[..i] == log;
      return true;
    }
  }
}
