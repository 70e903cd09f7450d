// What the seller's records and receipts say, over every interleaving of requests: the purchase is
// one that came in with the nonce, and the settlement named is the one the facilitator answered
// (sidecar/src/seller.ts).
module SellerReceipts {
  import opened Seller
  import opened SellerRuns

  // Nothing is claimed of a payment under way; an unknown one is marked so; a delivered one names
  // the transaction that settled it, or owns that nothing was broadcast.
  predicate Honest(w: World, trace: seq<Event>, n: string, rec: NonceRecord) {
    match rec.state
    case InFlight => rec.settlement == ""
    case Pending => rec.settlement == "PENDING_SETTLEMENT"
    case Delivered =>
      || Returned(n, Settled(rec.settlement)) in trace
      || (rec.settlement == "NOT_BROADCAST" && !w.configured && w.unsettledOk)
  }

  predicate ArrivesWith(t: Step, n: string, rec: NonceRecord) {
    t.Arrive? && t.p.nonce == n && t.p.path == rec.path && t.p.amount == rec.amount && t.p.payer == rec.payer
  }

  predicate CameIn(steps: seq<Step>, k: nat, n: string, rec: NonceRecord)
    requires k <= |steps|
  {
    exists j :: 0 <= j < k && ArrivesWith(steps[j], n, rec)
  }

  lemma ConcludedHonest(w: World, nonces: Nonces, trace: seq<Event>, p: Purchase, o: Outcome, n: string)
    requires n in Concluded(nonces, p, o, w.unsettledOk)
    requires n in nonces && n != p.nonce ==> Honest(w, trace, n, nonces[n])
    requires o.Settled? ==> Returned(p.nonce, o) in trace
    requires o.NotConfigured? ==> !w.configured
    ensures Honest(w, trace, n, Concluded(nonces, p, o, w.unsettledOk)[n])
  {
  }

  lemma MoreTrace(w: World, trace: seq<Event>, more: seq<Event>, n: string, rec: NonceRecord)
    requires Honest(w, trace, n, rec)
    ensures Honest(w, trace + more, n, rec)
  {
  }

  lemma ConcludeHonest(w: World, s: Sys, rid: nat, o: Outcome, n: string)
    requires rid in s.requests && n in Conclude(w, s, rid, o).nonces
    requires n in s.nonces ==> Honest(w, s.trace, n, s.nonces[n])
    requires o.Settled? ==> Returned(s.requests[rid].purchase.nonce, o) in s.trace
    requires o.NotConfigured? ==> !w.configured
    ensures Honest(w, Conclude(w, s, rid, o).trace, n, Conclude(w, s, rid, o).nonces[n])
  {
    var p := s.requests[rid].purchase;
    ConcludedHonest(w, s.nonces, s.trace, p, o, n);
    MoreTrace(w, s.trace, Handed(w, p.nonce, o), n, Concluded(s.nonces, p, o, w.unsettledOk)[n]);
  }

  lemma StepHonest(w: World, s: Sys, t: Step, n: string)
    requires Enabled(s, t) && n in Do(w, s, t).nonces
    requires n in s.nonces ==> Honest(w, s.trace, n, s.nonces[n])
    ensures Honest(w, Do(w, s, t).trace, n, Do(w, s, t).nonces[n])
  {
    match t {
      case Verify(rid, ok) => if ok && !w.configured { ConcludeHonest(w, s, rid, NotConfigured, n); }
      case FacilitatorVerify(rid, check) =>
        if check.Invalid? { ConcludeHonest(w, s, rid, Rejected, n); }
        if check.Failed? { ConcludeHonest(w, s, rid, Unknown, n); }
        if check.Valid? { MoreTrace(w, s.trace, [Submitted(s.requests[rid].purchase.nonce)], n, s.nonces[n]); }
      case SettleReturns(rid, outcome) =>
        var answered := Returned(s.requests[rid].purchase.nonce, outcome);
        if n in s.nonces { MoreTrace(w, s.trace, [answered], n, s.nonces[n]); }
        ConcludeHonest(w, s.(trace := s.trace + [answered]), rid, outcome, n);
      case _ =>
    }
  }

  // A request under way carries the purchase it came in with.
  lemma {:induction false} RequestCameIn(w: World, states: seq<Sys>, steps: seq<Step>, k: nat, rid: nat)
    requires Run(w, states, steps) && k <= |steps| && rid in states[k].requests
    ensures var p := states[k].requests[rid].purchase; CameIn(steps, k, p.nonce, Recorded(p, InFlight, ""))
    decreases k
  {
    if k > 0 {
      RequestOfStep(w, states[k - 1], steps[k - 1], rid);
      if rid in states[k - 1].requests && states[k - 1].requests[rid].purchase == states[k].requests[rid].purchase {
        RequestCameIn(w, states, steps, k - 1, rid);
      }
    }
  }

  lemma RequestOfStep(w: World, s: Sys, t: Step, rid: nat)
    requires Enabled(s, t) && rid in Do(w, s, t).requests
    ensures var p := Do(w, s, t).requests[rid].purchase;
            || (rid in s.requests && s.requests[rid].purchase == p)
            || ArrivesWith(t, p.nonce, Recorded(p, InFlight, ""))
  {
  }

  // A new record is of this step's arrival, or of the request it concludes.
  lemma RecordOfStep(w: World, s: Sys, t: Step, n: string)
    requires Enabled(s, t) && n in Do(w, s, t).nonces
    ensures var rec := Do(w, s, t).nonces[n];
            || (n in s.nonces && s.nonces[n] == rec)
            || ArrivesWith(t, n, rec)
            || (!t.Arrive? && t.rid in s.requests &&
                var p := s.requests[t.rid].purchase;
                p.nonce == n && p.path == rec.path && p.amount == rec.amount && p.payer == rec.payer)
  {
  }

  // In every state of every run each record is of a purchase that came in with its nonce, and its
  // settlement is the facilitator's own answer: no path invents one.
  lemma {:induction false} RecordsAreHonest(w: World, states: seq<Sys>, steps: seq<Step>, k: nat, n: string)
    requires Run(w, states, steps) && k <= |steps| && n in states[k].nonces
    ensures Honest(w, states[k].trace, n, states[k].nonces[n]) && CameIn(steps, k, n, states[k].nonces[n])
    decreases k
  {
    if k > 0 {
      var s, t := states[k - 1], steps[k - 1];
      if n in s.nonces { RecordsAreHonest(w, states, steps, k - 1, n); }
      StepHonest(w, s, t, n);
      RecordOfStep(w, s, t, n);
      if !t.Arrive? && t.rid in s.requests { RequestCameIn(w, states, steps, k - 1, t.rid); }
    }
  }
}
