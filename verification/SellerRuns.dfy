// All interleavings of requests at one seller: per nonce, settlements never overlap, none follows
// one that settled or may have, goods go out at most once, and every in-flight record has one
// owner (sidecar/src/seller.ts).
module SellerRuns {
  import opened Wrappers
  import opened Seller

  // Verifying the signature; asking the facilitator to verify; submitted.
  datatype Stage = Verifying | Checking | Settling

  datatype Request = Request(purchase: Purchase, stage: Stage)

  // What left the process, in order.
  datatype Event =
    | Submitted(nonce: string)
    | Returned(nonce: string, outcome: Outcome)
    | HandedOver(nonce: string)

  datatype World = World(configured: bool, unsettledOk: bool)

  // `orphans` are the nonces whose verification threw out of the handler.
  datatype Sys = Sys(nonces: Nonces, requests: map<nat, Request>, trace: seq<Event>, orphans: set<string>)

  datatype Check = Valid | Invalid | Failed

  datatype Step =
    | Arrive(rid: nat, p: Purchase)
    | Verify(rid: nat, ok: bool)
    | VerifyThrows(rid: nat)
    | FacilitatorVerify(rid: nat, check: Check)
    | SettleReturns(rid: nat, outcome: Outcome)

  predicate At(s: Sys, rid: nat, stage: Stage) {
    rid in s.requests && s.requests[rid].stage == stage
  }

  predicate Enabled(s: Sys, t: Step) {
    match t
    case Arrive(rid, _) => rid !in s.requests
    case Verify(rid, _) => At(s, rid, Verifying)
    case VerifyThrows(rid) => At(s, rid, Verifying)
    case FacilitatorVerify(rid, _) => At(s, rid, Checking)
    case SettleReturns(rid, outcome) => At(s, rid, Settling) && !outcome.NotConfigured?
  }

  function Handed(w: World, n: string, o: Outcome): seq<Event> {
    if ReleaseDecision(o, w.unsettledOk).Deliver? then [HandedOver(n)] else []
  }

  // A request ends with an outcome; a delivery leaves the process.
  function Conclude(w: World, s: Sys, rid: nat, o: Outcome): Sys
    requires rid in s.requests
  {
    var p := s.requests[rid].purchase;
    s.(nonces := Concluded(s.nonces, p, o, w.unsettledOk),
       requests := s.requests - {rid},
       trace := s.trace + Handed(w, p.nonce, o))
  }

  function Move(s: Sys, rid: nat, stage: Stage): Sys
    requires rid in s.requests
  {
    s.(requests := s.requests[rid := s.requests[rid].(stage := stage)])
  }

  function Do(w: World, s: Sys, t: Step): Sys
    requires Enabled(s, t)
  {
    match t
    case Arrive(rid, p) =>
      if Meaning(s.nonces, p).Claimed? then
        s.(nonces := s.nonces[p.nonce := Recorded(p, InFlight, "")], requests := s.requests[rid := Request(p, Verifying)])
      else s
    case Verify(rid, ok) =>
      if !ok then s.(nonces := s.nonces - {s.requests[rid].purchase.nonce}, requests := s.requests - {rid})
      else if w.configured then Move(s, rid, Checking)
      else Conclude(w, s, rid, NotConfigured)
    case VerifyThrows(rid) =>
      s.(requests := s.requests - {rid}, orphans := s.orphans + {s.requests[rid].purchase.nonce})
    case FacilitatorVerify(rid, check) =>
      if check.Invalid? then Conclude(w, s, rid, Rejected)
      else if check.Failed? then Conclude(w, s, rid, Unknown)
      else Move(s, rid, Settling).(trace := s.trace + [Submitted(s.requests[rid].purchase.nonce)])
    case SettleReturns(rid, outcome) =>
      Conclude(w, s.(trace := s.trace + [Returned(s.requests[rid].purchase.nonce, outcome)]), rid, outcome)
  }

  ghost predicate Run(w: World, states: seq<Sys>, steps: seq<Step>) {
    && |states| == |steps| + 1
    && states[0] == Sys(map[], map[], [], {})
    && forall k :: 0 <= k < |steps| ==> Enabled(states[k], steps[k]) && states[k + 1] == Do(w, states[k], steps[k])
  }

  // ----- The life of one nonce, read off the trace -----

  // Free to submit; submitted; settled but not handed over; possibly landed; handed over.
  datatype Life = Free | Busy | Paid | Open | Done

  function After(life: Life, e: Event): Life {
    match e
    case Submitted(_) => Busy
    case Returned(_, o) => if o.Settled? then Paid else if o.Unknown? then Open else Free
    case HandedOver(_) => Done
  }

  function LifeOf(trace: seq<Event>, n: string): Life {
    if trace == [] then Free
    else
      var before, e := LifeOf(trace[..|trace| - 1], n), trace[|trace| - 1];
      if e.nonce == n then After(before, e) else before
  }

  // A submission only from a free nonce, a return only to a submission, and a delivery only of a
  // settled one, or of a never-submitted one where the seller is unconfigured and on loopback.
  predicate Allowed(w: World, life: Life, e: Event) {
    match e
    case Submitted(_) => life == Free && w.configured
    case Returned(_, o) => life == Busy && !o.NotConfigured?
    case HandedOver(_) => life == Paid || (life == Free && !w.configured && w.unsettledOk)
  }

  predicate Proper(w: World, trace: seq<Event>) {
    trace == [] ||
    (&& Proper(w, trace[..|trace| - 1])
     && Allowed(w, LifeOf(trace[..|trace| - 1], trace[|trace| - 1].nonce), trace[|trace| - 1]))
  }

  lemma TraceAppend(w: World, trace: seq<Event>, e: Event)
    ensures Proper(w, trace + [e]) <==> Proper(w, trace) && Allowed(w, LifeOf(trace, e.nonce), e)
    ensures forall n :: LifeOf(trace + [e], n) == if e.nonce == n then After(LifeOf(trace, n), e) else LifeOf(trace, n)
  {
    assert (trace + [e])[..|trace|] == trace;
  }

  // ----- The invariant -----

  predicate RequestOk(w: World, s: Sys, r: Request) {
    var n := r.purchase.nonce;
    && n in s.nonces && s.nonces[n] == Recorded(r.purchase, InFlight, "") && n !in s.orphans
    && LifeOf(s.trace, n) == (if r.stage.Settling? then Busy else Free)
    && (!r.stage.Verifying? ==> w.configured)
  }

  predicate Owned(s: Sys, n: string) {
    exists rid :: rid in s.requests && s.requests[rid].purchase.nonce == n
  }

  predicate RecordOk(s: Sys, n: string) {
    if n !in s.nonces then LifeOf(s.trace, n) == Free && n !in s.orphans
    else
      match s.nonces[n].state
      case InFlight => (Owned(s, n) || n in s.orphans) && (n in s.orphans ==> LifeOf(s.trace, n) == Free)
      case Pending => n !in s.orphans && (LifeOf(s.trace, n) == Free || LifeOf(s.trace, n) == Open)
      case Delivered => n !in s.orphans && LifeOf(s.trace, n) == Done
  }

  ghost predicate Inv(w: World, s: Sys) {
    && Proper(w, s.trace)
    && (forall rid :: rid in s.requests ==> RequestOk(w, s, s.requests[rid]))
    && (forall a, b :: a in s.requests && b in s.requests && s.requests[a].purchase.nonce == s.requests[b].purchase.nonce ==> a == b)
    && (forall n :: RecordOk(s, n))
  }

  // A step that touches one nonce leaves every other request and record as it was.
  lemma Elsewhere(w: World, s: Sys, s': Sys, n: string, rid: nat)
    requires Inv(w, s)
    requires forall m :: m != n ==> (m in s'.nonces <==> m in s.nonces) && (m in s.nonces ==> s'.nonces[m] == s.nonces[m])
    requires forall m :: m != n ==> LifeOf(s'.trace, m) == LifeOf(s.trace, m) && (m in s'.orphans <==> m in s.orphans)
    requires forall x :: x != rid ==> (x in s'.requests <==> x in s.requests) && (x in s.requests ==> s'.requests[x] == s.requests[x])
    requires rid in s.requests ==> s.requests[rid].purchase.nonce == n
    requires rid in s'.requests ==> s'.requests[rid].purchase.nonce == n
    requires forall x :: x in s.requests && s.requests[x].purchase.nonce == n ==> x == rid
    ensures forall x :: x in s'.requests && x != rid ==> RequestOk(w, s', s'.requests[x])
    ensures forall m :: m != n ==> RecordOk(s', m)
    ensures forall a, b :: a in s'.requests && b in s'.requests && s'.requests[a].purchase.nonce == s'.requests[b].purchase.nonce ==> a == b
  {
    forall x | x in s'.requests && x != rid ensures RequestOk(w, s', s'.requests[x]) {
      assert RequestOk(w, s, s.requests[x]);
    }
    forall m | m != n ensures RecordOk(s', m) {
      assert RecordOk(s, m);
      if Owned(s, m) {
        var x :| x in s.requests && s.requests[x].purchase.nonce == m;
        assert x in s'.requests && s'.requests[x].purchase.nonce == m;
      }
    }
  }

  // ----- One step at a time -----

  lemma ArriveKeeps(w: World, s: Sys, rid: nat, p: Purchase)
    requires Inv(w, s) && Enabled(s, Arrive(rid, p))
    ensures Inv(w, Do(w, s, Arrive(rid, p)))
  {
    var s' := Do(w, s, Arrive(rid, p));
    if Meaning(s.nonces, p).Claimed? {
      assert RecordOk(s, p.nonce);
      forall x | x in s.requests ensures s.requests[x].purchase.nonce != p.nonce {
        assert RequestOk(w, s, s.requests[x]);
      }
      Elsewhere(w, s, s', p.nonce, rid);
      assert s'.requests[rid].purchase.nonce == p.nonce;
      assert RequestOk(w, s', s'.requests[rid]);
    }
  }

  // Whether the life of a nonce lets its request end with an outcome.
  predicate MayEnd(w: World, life: Life, o: Outcome) {
    match o
    case Settled(_) => life == Paid
    case NotConfigured => life == Free && !w.configured
    case Rejected => life == Free
    case Unknown => life == Free || life == Open
  }

  lemma HandedTrace(w: World, trace: seq<Event>, n: string, o: Outcome)
    requires Proper(w, trace) && MayEnd(w, LifeOf(trace, n), o)
    ensures var after := trace + Handed(w, n, o);
            && Proper(w, after)
            && LifeOf(after, n) == (if ReleaseDecision(o, w.unsettledOk).Deliver? then Done else LifeOf(trace, n))
            && forall m :: m != n ==> LifeOf(after, m) == LifeOf(trace, m)
  {
    TraceAppend(w, trace, HandedOver(n));
    assert trace + [] == trace;
  }

  // A request ends, from a trace that allows what it hands over.
  lemma ConcludeKeeps(w: World, s: Sys, before: Sys, rid: nat, o: Outcome)
    requires Inv(w, before) && rid in before.requests && s == before.(trace := s.trace)
    requires var n := before.requests[rid].purchase.nonce;
             && Proper(w, s.trace) && MayEnd(w, LifeOf(s.trace, n), o)
             && (forall m :: m != n ==> LifeOf(s.trace, m) == LifeOf(before.trace, m))
    ensures Inv(w, Conclude(w, s, rid, o))
  {
    var n := before.requests[rid].purchase.nonce;
    var s' := Conclude(w, s, rid, o);
    assert RequestOk(w, before, before.requests[rid]);
    HandedTrace(w, s.trace, n, o);
    Elsewhere(w, before, s', n, rid);
    assert RecordOk(s', n);
  }

  lemma VerifyKeeps(w: World, s: Sys, rid: nat, ok: bool)
    requires Inv(w, s) && Enabled(s, Verify(rid, ok))
    ensures Inv(w, Do(w, s, Verify(rid, ok)))
  {
    var n, s' := s.requests[rid].purchase.nonce, Do(w, s, Verify(rid, ok));
    assert RequestOk(w, s, s.requests[rid]);
    if ok && !w.configured {
      ConcludeKeeps(w, s, s, rid, NotConfigured);
    } else {
      Elsewhere(w, s, s', n, rid);
      assert ok ==> s'.requests[rid].purchase.nonce == n;
      assert RecordOk(s', n);
    }
  }

  lemma VerifyThrowsKeeps(w: World, s: Sys, rid: nat)
    requires Inv(w, s) && Enabled(s, VerifyThrows(rid))
    ensures Inv(w, Do(w, s, VerifyThrows(rid)))
  {
    var n, s' := s.requests[rid].purchase.nonce, Do(w, s, VerifyThrows(rid));
    assert RequestOk(w, s, s.requests[rid]);
    Elsewhere(w, s, s', n, rid);
    assert RecordOk(s', n);
  }

  lemma SubmittingKeeps(w: World, s: Sys, rid: nat)
    requires Inv(w, s) && Enabled(s, FacilitatorVerify(rid, Valid))
    ensures Inv(w, Do(w, s, FacilitatorVerify(rid, Valid)))
  {
    var n, s' := s.requests[rid].purchase.nonce, Do(w, s, FacilitatorVerify(rid, Valid));
    assert RequestOk(w, s, s.requests[rid]);
    TraceAppend(w, s.trace, Submitted(n));
    Elsewhere(w, s, s', n, rid);
    assert s'.requests[rid].purchase.nonce == n;
    assert RecordOk(s', n);
  }

  lemma FacilitatorKeeps(w: World, s: Sys, rid: nat, check: Check)
    requires Inv(w, s) && Enabled(s, FacilitatorVerify(rid, check))
    ensures Inv(w, Do(w, s, FacilitatorVerify(rid, check)))
  {
    assert RequestOk(w, s, s.requests[rid]);
    match check {
      case Invalid => ConcludeKeeps(w, s, s, rid, Rejected);
      case Failed => ConcludeKeeps(w, s, s, rid, Unknown);
      case Valid => SubmittingKeeps(w, s, rid);
    }
  }

  lemma ReturnKeeps(w: World, s: Sys, rid: nat, outcome: Outcome)
    requires Inv(w, s) && Enabled(s, SettleReturns(rid, outcome))
    ensures Inv(w, Do(w, s, SettleReturns(rid, outcome)))
  {
    var n := s.requests[rid].purchase.nonce;
    assert RequestOk(w, s, s.requests[rid]);
    TraceAppend(w, s.trace, Returned(n, outcome));
    ConcludeKeeps(w, s.(trace := s.trace + [Returned(n, outcome)]), s, rid, outcome);
  }

  lemma {:induction false} RunInv(w: World, states: seq<Sys>, steps: seq<Step>)
    requires Run(w, states, steps)
    ensures Inv(w, states[|steps|])
  {
    if steps != [] {
      var k := |steps| - 1;
      var s := states[k];
      RunInv(w, states[..k + 1], steps[..k]);
      match steps[k] {
        case Arrive(rid, p) => ArriveKeeps(w, s, rid, p);
        case Verify(rid, ok) => VerifyKeeps(w, s, rid, ok);
        case VerifyThrows(rid) => VerifyThrowsKeeps(w, s, rid);
        case FacilitatorVerify(rid, check) => FacilitatorKeeps(w, s, rid, check);
        case SettleReturns(rid, outcome) => ReturnKeeps(w, s, rid, outcome);
      }
    }
  }

  // ----- Main results -----

  // Over every interleaving, every nonce lives properly: settle calls do not overlap, none follows
  // one that settled or may have, and the goods go out at most once, paid for or on an
  // unconfigured loopback seller.
  lemma EveryNonceLivesProperly(w: World, states: seq<Sys>, steps: seq<Step>)
    requires Run(w, states, steps)
    ensures Proper(w, states[|steps|].trace)
  {
    RunInv(w, states, steps);
  }

  function Count(trace: seq<Event>, n: string): nat {
    if trace == [] then 0
    else Count(trace[..|trace| - 1], n) + if trace[|trace| - 1] == HandedOver(n) then 1 else 0
  }

  lemma {:induction false} DeliveredOnce(w: World, trace: seq<Event>, n: string)
    requires Proper(w, trace)
    ensures Count(trace, n) == if LifeOf(trace, n) == Done then 1 else 0
  {
    if trace != [] {
      DeliveredOnce(w, trace[..|trace| - 1], n);
    }
  }

  // Once a submission settled or may have landed, no later one is made.
  lemma {:induction false} NoneAfterSettlement(w: World, trace: seq<Event>, j: nat, k: nat, n: string)
    requires Proper(w, trace) && j < k < |trace| && trace[j].Returned? && trace[j].nonce == n && !trace[j].outcome.Rejected?
    ensures trace[k] != Submitted(n)
    ensures LifeOf(trace[..k], n) != Free && LifeOf(trace[..k], n) != Busy
    decreases |trace| + k
  {
    var last := |trace| - 1;
    if k < last {
      assert trace[..last][..k] == trace[..k];
      NoneAfterSettlement(w, trace[..last], j, k, n);
    } else if j + 1 < k {
      var before := trace[..k];
      NoneAfterSettlement(w, before, j, k - 1, n);
      assert before[..k - 1] == trace[..k - 1];
      assert before[|before| - 1] == trace[k - 1];
    } else {
      assert trace[..k][|trace[..k]| - 1] == trace[j];
    }
  }

  // Every in-flight record has exactly one owner: a running request, or one whose verification
  // threw. When all requests have ended, the in-flight records left are those, and no others.
  lemma InFlightOwners(w: World, states: seq<Sys>, steps: seq<Step>, n: string)
    requires Run(w, states, steps)
    ensures var s := states[|steps|];
            && (n in s.nonces && s.nonces[n].state.InFlight? <==> Owned(s, n) || n in s.orphans)
            && !(Owned(s, n) && n in s.orphans)
            && (forall a, b | a in s.requests && b in s.requests ::
                  s.requests[a].purchase.nonce == n && s.requests[b].purchase.nonce == n ==> a == b)
            && (s.requests == map[] ==> (n in s.nonces && s.nonces[n].state.InFlight? <==> n in s.orphans))
  {
    RunInv(w, states, steps);
    var s := states[|steps|];
    assert RecordOk(s, n);
    if Owned(s, n) {
      var rid :| rid in s.requests && s.requests[rid].purchase.nonce == n;
      assert RequestOk(w, s, s.requests[rid]);
    }
  }

  predicate Threw(states: seq<Sys>, steps: seq<Step>, n: string)
    requires |states| == |steps| + 1
  {
    steps != [] &&
    var k := |steps| - 1;
    Throws(states[k], steps[k], n) || Threw(states[..k + 1], steps[..k], n)
  }

  predicate Throws(s: Sys, t: Step, n: string) {
    t.VerifyThrows? && t.rid in s.requests && s.requests[t.rid].purchase.nonce == n
  }

  lemma OrphansStep(w: World, s: Sys, t: Step, n: string)
    requires Enabled(s, t)
    ensures n in Do(w, s, t).orphans <==> n in s.orphans || Throws(s, t, n)
  {
  }

  // The orphans are exactly the nonces whose verification threw.
  lemma {:induction false} OrphansThrew(w: World, states: seq<Sys>, steps: seq<Step>, n: string)
    requires Run(w, states, steps)
    ensures n in states[|steps|].orphans <==> Threw(states, steps, n)
  {
    if steps != [] {
      var k := |steps| - 1;
      OrphansThrew(w, states[..k + 1], steps[..k], n);
      OrphansStep(w, states[k], steps[k], n);
    }
  }
}
