// The seller over its self-hosted facilitator: every settlement a run of the seller awaits is one
// attempt of the relay, so that what the relay answers and what the chain did decide the nonces
// together (sidecar/src/seller.ts, sidecar/src/self-facilitator.ts).
module SellerRelay {
  import opened Seller
  import opened SellerRuns
  import opened SellerChain
  import R = SelfRelay

  // The attempt behind the submission at each place of the trace, and what became of it.
  type Attempts = nat -> R.Attempt
  type Fates = nat -> R.Fate

  function AttemptAt(attempts: Attempts, k: nat): R.Attempt {
    attempts(k)
  }

  function FateAt(fates: Fates, k: nat): R.Fate {
    fates(k)
  }

  function LandedAt(fates: Fates): Landings {
    (k: nat) => FateAt(fates, k).Landed?
  }

  // The answer at place `r` is the relay's for the nonce's submission, or a call that was lost.
  ghost predicate AnsweredAt(lane: R.Lane, timeoutMs: nat, attempts: Attempts, trace: seq<Event>, r: nat)
    requires r < |trace| && trace[r].Returned?
  {
    var k := LastSubmit(trace[..r], trace[r].nonce);
    k >= 0 ==> trace[r].outcome.Unknown? || R.Answers(lane, timeoutMs, AttemptAt(attempts, k), trace[r].outcome)
  }

  ghost predicate Relayed(lane: R.Lane, timeoutMs: nat, attempts: Attempts, fates: Fates, trace: seq<Event>) {
    && (forall k :: 0 <= k < |trace| && trace[k].Submitted? ==> R.Honest(lane, AttemptAt(attempts, k), FateAt(fates, k)))
    && (forall r :: 0 <= r < |trace| && trace[r].Returned? ==> AnsweredAt(lane, timeoutMs, attempts, trace, r))
  }

  lemma RelayedPrefix(lane: R.Lane, timeoutMs: nat, attempts: Attempts, fates: Fates, trace: seq<Event>)
    requires trace != [] && Relayed(lane, timeoutMs, attempts, fates, trace)
    ensures Relayed(lane, timeoutMs, attempts, fates, trace[..|trace| - 1])
  {
    var before := trace[..|trace| - 1];
    forall r | 0 <= r < |before| && before[r].Returned? ensures AnsweredAt(lane, timeoutMs, attempts, before, r) {
      assert before[..r] == trace[..r];
      assert AnsweredAt(lane, timeoutMs, attempts, trace, r);
    }
  }

  // Where every answer is the relay's, every answer is true of its submission.
  lemma {:induction false} RelayedIsTruthful(lane: R.Lane, timeoutMs: nat, attempts: Attempts, fates: Fates, trace: seq<Event>)
    requires Relayed(lane, timeoutMs, attempts, fates, trace)
    ensures Truthful(trace, LandedAt(fates))
  {
    if trace != [] {
      var r := |trace| - 1;
      var before, e := trace[..r], trace[r];
      RelayedPrefix(lane, timeoutMs, attempts, fates, trace);
      RelayedIsTruthful(lane, timeoutMs, attempts, fates, before);
      if e.Returned? && LastSubmit(before, e.nonce) >= 0 && !e.outcome.Unknown? {
        var k := LastSubmit(before, e.nonce);
        assert AnsweredAt(lane, timeoutMs, attempts, trace, r);
        assert trace[k] == Submitted(e.nonce);
        R.AnswersSoundly(lane, timeoutMs, AttemptAt(attempts, k), FateAt(fates, k), e.outcome);
      }
    }
  }

  // Over the relay, whatever Circle and the chain answer and in whatever order the requests come:
  // a nonce the seller holds no record of, never seen or freed, has no landed transfer, and goods
  // were handed over for a landed one, but at an unconfigured seller on loopback.
  lemma RelayedNonceIsUnused(w: World, states: seq<Sys>, steps: seq<Step>,
                             lane: R.Lane, timeoutMs: nat, attempts: Attempts, fates: Fates, n: string)
    requires Run(w, states, steps) && Relayed(lane, timeoutMs, attempts, fates, states[|steps|].trace)
    ensures var s := states[|steps|];
            && (n !in s.nonces ==> forall k :: 0 <= k < |s.trace| && s.trace[k] == Submitted(n) ==> !FateAt(fates, k).Landed?)
            && (Count(s.trace, n) > 0 ==>
                  || (exists k :: 0 <= k < |s.trace| && s.trace[k] == Submitted(n) && FateAt(fates, k).Landed?)
                  || (!w.configured && w.unsettledOk))
  {
    var s := states[|steps|];
    RelayedIsTruthful(lane, timeoutMs, attempts, fates, s.trace);
    FreedNonceIsUnused(w, states, steps, LandedAt(fates), n);
    if n !in s.nonces {
      forall k | 0 <= k < |s.trace| && s.trace[k] == Submitted(n) ensures !FateAt(fates, k).Landed? {
        assert LandedAt(fates)(k) == FateAt(fates, k).Landed?;
      }
    }
  }
}
