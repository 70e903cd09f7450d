// The advance flow (daemon/internal/advancing/advancing.go): what it records of one advance, and
// what it does at start with the advances an earlier process left behind.
module Advances {
  import opened Wrappers

  type Id = string

  datatype State = Pending | Approved | Closed

  // A request as the lifecycle holds it; `chainRef` is the vault job the advance draws on.
  datatype Request = Request(chainRef: string, state: State, decidedBy: string, executed: bool)

  datatype Event =
    | Proposed(id: Id, chainRef: string)
    | Decided(id: Id, approve: bool, who: string)
    | Lapsed(id: Id)
    | Executing(id: Id)
    | Executed(id: Id, fromChain: bool)
    | Reverted(id: Id)
    | PendingChain(id: Id)
    | Interrupted(id: Id)

  type Requests = map<Id, Request>

  function Apply(m: Requests, e: Event): Requests {
    match e
    case Proposed(id, ref) => m[id := Request(ref, Pending, "", false)]
    case Decided(id, approve, who) =>
      if id in m then m[id := m[id].(state := if approve then Approved else Closed, decidedBy := who)] else m
    case Lapsed(id) => if id in m then m[id := m[id].(state := Closed)] else m
    case Executing(id) => if id in m then m[id := m[id].(executed := true)] else m
    case _ => m
  }

  function Replay(log: seq<Event>): Requests {
    if log == [] then map[] else Apply(Replay(log[..|log| - 1]), log[|log| - 1])
  }

  predicate IsOutcome(e: Event, id: Id) {
    (e.Executed? || e.Reverted? || e.PendingChain?) && e.id == id
  }

  // An outcome of this request is durable.
  predicate Resolved(log: seq<Event>, id: Id) {
    log != [] && (IsOutcome(log[|log| - 1], id) || Resolved(log[..|log| - 1], id))
  }

  predicate ToldOwner(log: seq<Event>, id: Id) {
    log != [] && (log[|log| - 1] == Interrupted(id) || ToldOwner(log[..|log| - 1], id))
  }

  function ExecutedCount(log: seq<Event>, id: Id): nat {
    if log == [] then 0
    else ExecutedCount(log[..|log| - 1], id) + if log[|log| - 1].Executed? && log[|log| - 1].id == id then 1 else 0
  }

  lemma LogAppend(log: seq<Event>, e: Event)
    ensures Replay(log + [e]) == Apply(Replay(log), e)
    ensures forall id :: Resolved(log + [e], id) <==> Resolved(log, id) || IsOutcome(e, id)
    ensures forall id :: ToldOwner(log + [e], id) <==> ToldOwner(log, id) || e == Interrupted(id)
    ensures forall id :: ExecutedCount(log + [e], id) == ExecutedCount(log, id) + if e.Executed? && e.id == id then 1 else 0
  {
    assert (log + [e])[..|log|] == log;
  }

  // ----- Recording one outcome -----

  // What the treasury reports: nothing submitted, mined with or without success, or an error.
  datatype ChainOutcome = NotSubmitted | Mined(success: bool) | Failed

  function OutcomeEvent(id: Id, out: ChainOutcome): Option<Event> {
    match out
    case NotSubmitted => Some(PendingChain(id))
    case Mined(success) => Some(if success then Executed(id, false) else Reverted(id))
    case Failed => None
  }

  // ----- At start -----

  datatype Oracle = Landed | NotLanded | Unavailable

  // What a restart appends for one request, if anything. The chain answers for its job alone.
  function Escalation(log: seq<Event>, id: Id, r: Request, answer: Oracle): Option<Event> {
    if r.executed then
      if Resolved(log, id) then None
      else if r.chainRef != "" && answer == Landed then Some(Executed(id, true))
      else Some(Interrupted(id))
    else if r.state == Closed then None
    else Some(Interrupted(id))
  }

  // A durable outcome is one of the three events of this request.
  lemma {:induction false} ResolvedExactly(log: seq<Event>, id: Id)
    ensures Resolved(log, id) <==>
              Executed(id, true) in log || Executed(id, false) in log || Reverted(id) in log || PendingChain(id) in log
  {
    if log != [] {
      ResolvedExactly(log[..|log| - 1], id);
      assert log == log[..|log| - 1] + [log[|log| - 1]];
    }
  }

  // What a restart appends, case by case: nothing for a durable outcome or a closed proposal; the
  // chain's word where it landed; and otherwise the owner is told.
  lemma EscalationExactly(log: seq<Event>, id: Id, r: Request, answer: Oracle)
    ensures var e := Escalation(log, id, r, answer);
            && (e == None <==> if r.executed then Resolved(log, id) else r.state == Closed)
            && (e == Some(Executed(id, true)) <==> r.executed && !Resolved(log, id) && r.chainRef != "" && answer == Landed)
            && (e == Some(Interrupted(id)) <==>
                  if r.executed then !Resolved(log, id) && (r.chainRef == "" || answer != Landed) else r.state != Closed)
  {
  }

  // The whole pass, over the requests in some order, each answered for itself.
  function Escalated(log: seq<Event>, ids: seq<Id>, m: Requests, answers: Id -> Oracle): seq<Event>
    requires forall k :: 0 <= k < |ids| ==> ids[k] in m
  {
    if ids == [] then log
    else
      var before := Escalated(log, ids[..|ids| - 1], m, answers);
      var id := ids[|ids| - 1];
      match Escalation(before, id, m[id], answers(id))
      case Some(e) => before + [e]
      case None => before
  }

  class Flow {
    var log: seq<Event>

    constructor (log: seq<Event>)
      ensures this.log == log
    {
      this.log := log;
    }

    method RecordAdvanceOutcome(id: Id, out: ChainOutcome, appended: bool) returns (ok: bool)
      modifies this
      ensures log == old(log) + if appended && OutcomeEvent(id, out).Some? then [OutcomeEvent(id, out).value] else []
      ensures appended ==>
                log == old(log) + match out
                                  case NotSubmitted => [PendingChain(id)]
                                  case Mined(success) => if success then [Executed(id, false)] else [Reverted(id)]
                                  case Failed => []
      ensures ok <==> (out == Mined(true) || out == NotSubmitted) && appended
    {
      match out {
        case NotSubmitted =>
          if appended {
            log := log + [PendingChain(id)];
          }
          return appended;
        case Mined(success) =>
          if !success {
            // A revert whose record fails is only logged: it is an error either way.
            if appended {
              log := log + [Reverted(id)];
            }
            return false;
          }
          if appended {
            log := log + [Executed(id, false)];
          }
          return appended;
        case Failed => return false;
      }
    }

    // Close one claimed request: an outcome already durable, the chain's answer, or the owner.
    method ResolveExecutedClaim(id: Id, r: Request, answer: Oracle, appended: bool) returns (n: Option<nat>)
      requires r.executed
      modifies this
      ensures log == old(log) + if appended && Escalation(old(log), id, r, answer).Some?
                                then [Escalation(old(log), id, r, answer).value] else []
      ensures n.None? <==> !appended && Escalation(old(log), id, r, answer).Some?
      ensures n.Some? ==> n.value == if Escalation(old(log), id, r, answer) == Some(Interrupted(id)) then 1 else 0
    {
      if Resolved(log, id) {
        return Some(0);
      }
      if r.chainRef != "" && answer == Landed {
        if !appended {
          return None;
        }
        log := log + [Executed(id, true)];
        return Some(0);
      }
      if !appended {
        return None;
      }
      log := log + [Interrupted(id)];
      return Some(1);
    }

    // The pass over the recovered requests. With every append succeeding it leaves the whole
    // escalation behind and counts what the owner was told; a failed append stops it.
    method EscalateInterrupted(ids: seq<Id>, m: Requests, answers: Id -> Oracle, appends: Id -> bool)
      returns (escalated: Option<nat>)
      requires forall k :: 0 <= k < |ids| ==> ids[k] in m
      modifies this
      ensures escalated.Some? ==> log == Escalated(old(log), ids, m, answers)
      ensures escalated.Some? ==> escalated.value == Told(old(log), ids, m, answers)
      ensures (forall id :: appends(id)) ==> escalated.Some?
    {
      var n := 0;
      for k := 0 to |ids|
        invariant log == Escalated(old(log), ids[..k], m, answers)
        invariant n == Told(old(log), ids[..k], m, answers)
      {
        var id := ids[k];
        var req := m[id];
        assert ids[..k + 1][..k] == ids[..k];
        if req.executed {
          var more := ResolveExecutedClaim(id, req, answers(id), appends(id));
          if more.None? {
            return None;
          }
          n := n + more.value;
          assert log == Escalated(old(log), ids[..k + 1], m, answers);
          continue;
        }
        if req.state == Closed {
          continue;
        }
        if !appends(id) {
          return None;
        }
        log := log + [Interrupted(id)];
        n := n + 1;
      }
      assert ids[..|ids|] == ids;
      return Some(n);
    }
  }

  // An advance nobody need worry about: its outcome is durable, its owner has been told, or it was
  // closed before anything was claimed.
  predicate Settled(log: seq<Event>, id: Id, r: Request) {
    ToldOwner(log, id) || if r.executed then Resolved(log, id) else r.state == Closed
  }

  lemma SettledStays(log: seq<Event>, e: Event, id: Id, r: Request)
    requires Settled(log, id, r)
    ensures Settled(log + [e], id, r)
  {
    LogAppend(log, e);
  }

  // The pass leaves no advance silent, and says nothing of one that needs no word.
  lemma {:induction false} NoneLeftSilent(log: seq<Event>, ids: seq<Id>, m: Requests, answers: Id -> Oracle, k: nat)
    requires (forall j :: 0 <= j < |ids| ==> ids[j] in m) && k < |ids|
    ensures Settled(Escalated(log, ids, m, answers), ids[k], m[ids[k]])
  {
    var init, id := ids[..|ids| - 1], ids[|ids| - 1];
    var before := Escalated(log, init, m, answers);
    var e := Escalation(before, id, m[id], answers(id));
    EscalationExactly(before, id, m[id], answers(id));
    if e.Some? { LogAppend(before, e.value); }
    if k < |init| {
      NoneLeftSilent(log, init, m, answers, k);
      if e.Some? { SettledStays(before, e.value, ids[k], m[ids[k]]); }
    }
  }

  lemma {:induction false} OnlyTheUnsettled(log: seq<Event>, ids: seq<Id>, m: Requests, answers: Id -> Oracle, id: Id)
    requires forall j :: 0 <= j < |ids| ==> ids[j] in m
    requires id !in ids || (!m[id].executed && m[id].state == Closed) || (m[id].executed && Resolved(log, id))
    ensures ToldOwner(Escalated(log, ids, m, answers), id) <==> ToldOwner(log, id)
    ensures Resolved(Escalated(log, ids, m, answers), id) <==> Resolved(log, id)
  {
    if ids != [] {
      var init, last := ids[..|ids| - 1], ids[|ids| - 1];
      OnlyTheUnsettled(log, init, m, answers, id);
      var before := Escalated(log, init, m, answers);
      var e := Escalation(before, last, m[last], answers(last));
      EscalationExactly(before, last, m[last], answers(last));
      if e.Some? { LogAppend(before, e.value); }
    }
  }

  // How many requests the pass hands to the owner.
  function Told(log: seq<Event>, ids: seq<Id>, m: Requests, answers: Id -> Oracle): nat
    requires forall k :: 0 <= k < |ids| ==> ids[k] in m
  {
    if ids == [] then 0
    else
      var init, id := ids[..|ids| - 1], ids[|ids| - 1];
      Told(log, init, m, answers)
      + if Escalation(Escalated(log, init, m, answers), id, m[id], answers(id)) == Some(Interrupted(id)) then 1 else 0
  }
}
