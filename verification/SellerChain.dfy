// The seller's nonces against the chain: a nonce it frees is unused, and what it hands over was
// paid for (sidecar/src/seller.ts, sidecar/src/self-facilitator.ts).
module SellerChain {
  import opened Seller
  import opened SellerRuns

  // Whether the submission made at each place of the trace moved money.
  type Landings = nat -> bool

  // The place of the last submission of a nonce.
  function LastSubmit(trace: seq<Event>, n: string): (k: int)
    ensures -1 <= k < |trace|
    ensures k >= 0 ==> trace[k] == Submitted(n)
  {
    if trace == [] then -1
    else if trace[|trace| - 1] == Submitted(n) then |trace| - 1
    else LastSubmit(trace[..|trace| - 1], n)
  }

  // Every answer is true of its submission: a rejected one moved nothing, a settled one moved.
  ghost predicate Truthful(trace: seq<Event>, landed: Landings) {
    trace == [] ||
    var before, e := trace[..|trace| - 1], trace[|trace| - 1];
    && Truthful(before, landed)
    && (e.Returned? && LastSubmit(before, e.nonce) >= 0 ==>
          && (e.outcome.Rejected? ==> !landed(LastSubmit(before, e.nonce)))
          && (e.outcome.Settled? ==> landed(LastSubmit(before, e.nonce))))
  }

  ghost predicate Moved(trace: seq<Event>, landed: Landings, n: string) {
    exists k :: 0 <= k < |trace| && trace[k] == Submitted(n) && landed(k)
  }

  lemma MovedAppend(trace: seq<Event>, e: Event, landed: Landings, n: string)
    ensures Moved(trace + [e], landed, n) <==> Moved(trace, landed, n) || (e == Submitted(n) && landed(|trace|))
  {
    var more := trace + [e];
    if Moved(more, landed, n) {
      var k :| 0 <= k < |more| && more[k] == Submitted(n) && landed(k);
      if k < |trace| { assert trace[k] == Submitted(n); }
    }
    if Moved(trace, landed, n) {
      var k :| 0 <= k < |trace| && trace[k] == Submitted(n) && landed(k);
      assert more[k] == Submitted(n);
    }
    if e == Submitted(n) { assert more[|trace|] == Submitted(n); }
  }

  // Nothing submitted for the nonce moved money, but perhaps the submission out now.
  ghost predicate OnlyLastMoved(trace: seq<Event>, landed: Landings, n: string) {
    && LastSubmit(trace, n) >= 0
    && forall k :: 0 <= k < |trace| && trace[k] == Submitted(n) && landed(k) ==> k == LastSubmit(trace, n)
  }

  // What the life of a nonce says about its money: free, nothing moved; busy, nothing but perhaps
  // the submission out now; paid, something did.
  ghost predicate Told(w: World, life: Life, trace: seq<Event>, landed: Landings, n: string) {
    match life
    case Free => !Moved(trace, landed, n)
    case Busy => OnlyLastMoved(trace, landed, n)
    case Paid => Moved(trace, landed, n)
    case Open => true
    case Done => Moved(trace, landed, n) || (!w.configured && w.unsettledOk)
  }

  lemma ElsewhereTold(w: World, life: Life, before: seq<Event>, e: Event, landed: Landings, n: string)
    requires Told(w, life, before, landed, n) && e.nonce != n
    ensures Told(w, life, before + [e], landed, n)
  {
    var trace := before + [e];
    MovedAppend(before, e, landed, n);
    assert trace[..|before|] == before;
    forall k | life == Busy && 0 <= k < |trace| && trace[k] == Submitted(n) && landed(k) ensures k == LastSubmit(before, n) {
      assert k < |before| && before[k] == Submitted(n);
    }
  }

  lemma SubmittedTold(before: seq<Event>, landed: Landings, n: string)
    requires !Moved(before, landed, n)
    ensures OnlyLastMoved(before + [Submitted(n)], landed, n)
  {
    var trace := before + [Submitted(n)];
    assert LastSubmit(trace, n) == |before|;
    assert forall k :: 0 <= k < |before| ==> trace[k] == before[k];
  }

  lemma ReturnedTold(before: seq<Event>, o: Outcome, landed: Landings, n: string)
    requires OnlyLastMoved(before, landed, n)
    ensures var trace := before + [Returned(n, o)];
            && (!landed(LastSubmit(before, n)) ==> !Moved(trace, landed, n))
            && (landed(LastSubmit(before, n)) ==> Moved(trace, landed, n))
  {
    MovedAppend(before, Returned(n, o), landed, n);
    if Moved(before, landed, n) {
      var k :| 0 <= k < |before| && before[k] == Submitted(n) && landed(k);
      assert k == LastSubmit(before, n);
    }
  }

  lemma {:induction false} LifeTellsMoney(w: World, trace: seq<Event>, landed: Landings, n: string)
    requires Proper(w, trace) && Truthful(trace, landed)
    ensures Told(w, LifeOf(trace, n), trace, landed, n)
  {
    if trace != [] {
      var before, e := trace[..|trace| - 1], trace[|trace| - 1];
      assert trace == before + [e];
      LifeTellsMoney(w, before, landed, n);
      if e.nonce != n {
        ElsewhereTold(w, LifeOf(before, n), before, e, landed, n);
      } else {
        match e {
          case Submitted(_) => SubmittedTold(before, landed, n);
          case Returned(_, o) => ReturnedTold(before, o, landed, n);
          case HandedOver(_) => MovedAppend(before, e, landed, n);
        }
      }
    }
  }

  // In any run against a truthful facilitator, a nonce the seller holds no record of, having
  // never seen it or having freed it, moved no money; and a handed-over resource was paid for
  // unless this is an unconfigured seller on loopback.
  lemma FreedNonceIsUnused(w: World, states: seq<Sys>, steps: seq<Step>, landed: Landings, n: string)
    requires Run(w, states, steps) && Truthful(states[|steps|].trace, landed)
    ensures var s := states[|steps|];
            && (n !in s.nonces ==> !Moved(s.trace, landed, n))
            && (Count(s.trace, n) > 0 ==> Moved(s.trace, landed, n) || (!w.configured && w.unsettledOk))
  {
    var s := states[|steps|];
    RunInv(w, states, steps);
    LifeTellsMoney(w, s.trace, landed, n);
    DeliveredOnce(w, s.trace, n);
    assert RecordOk(s, n);
  }
}
