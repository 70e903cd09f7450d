// All interleavings of concurrent pay calls with crashes and restarts: at most one signature per
// nonce, a stored hash that never changes, and exactly when "not found" proves nothing was signed
// (sidecar/src/service.ts, sidecar/src/store.ts).
module PaymentRuns {
  import opened Wrappers
  import opened PaymentStore
  import opened PaymentService
  import opened Traces

  // Probing: no record yet. Ready: recorded, about to sign. Signed: submitted.
  datatype Stage = Probing | Ready | Signed

  datatype Thread = Thread(pay: Pay, stage: Stage)

  datatype Signature = Signature(nonce: string, intentHash: string)

  datatype Sys = Sys(
    up: bool,
    mem: seq<Record>,
    durable: seq<Record>,
    inFlight: set<string>,
    threads: map<nat, Thread>,
    signatures: seq<Signature>)

  datatype Step =
    | Enter(tid: nat, b: Pay, now: int)
    | Probe(tid: nat, probed: bool, reach: Reach)
    | Sign(tid: nat)
    | Finish(tid: nat, outcome: Outcome, first: Reach, second: Reach)
    | Crash
    | Start

  // The payment id derived from the intent hash and the nonce.
  type Ids = (string, string) -> string

  predicate At(s: Sys, tid: nat, stage: Stage) {
    s.up && tid in s.threads && s.threads[tid].stage == stage
  }

  // A signer that throws ends the call before its signature exists.
  predicate Enabled(ids: Ids, s: Sys, t: Step) {
    match t
    case Enter(tid, b, _) => s.up && tid !in s.threads && b.paymentId == ids(b.intentHash, b.nonce)
    case Probe(tid, _, _) => At(s, tid, Probing)
    case Sign(tid) => At(s, tid, Ready)
    case Finish(tid, outcome, _, _) => At(s, tid, Signed) || (At(s, tid, Ready) && outcome.Threw?)
    case Crash => s.up
    case Start => !s.up
  }

  function RecordOf(b: Pay, state: PaymentState): Record {
    Record(b.paymentId, b.nonce, b.intentHash, state)
  }

  function End(s: Sys, tid: nat): Sys
    requires tid in s.threads
  {
    s.(threads := s.threads - {tid}, inFlight := s.inFlight - {s.threads[tid].pay.nonce})
  }

  // One upsert: the map at once, the file if the persist completes.
  function Write(s: Sys, rec: Record, reach: Reach): Sys {
    var mem := Put(s.mem, rec);
    s.(mem := mem, durable := if reach.Whole? then mem else s.durable)
  }

  function Settle(s: Sys, b: Pay, outcome: Outcome, first: Reach, second: Reach): Sys {
    match outcome
    case Delivered =>
      var s' := Write(s, RecordOf(b, DELIVERED), first);
      if first.Whole? then s' else Write(s', RecordOf(b, FAILED), second)
    case SentThenFailed => Write(s, RecordOf(b, RECONCILING), first)
    case Threw => Write(s, RecordOf(b, FAILED), first)
  }

  // What the outcome leaves in memory and in the file is what the endpoint's own method leaves.
  lemma SettleIsFinish(s: Sys, b: Pay, outcome: Outcome, first: Reach, second: Reach)
    ensures Settle(s, b, outcome, first, second).mem == OutcomeRecords(s.mem, b, outcome, first)
    ensures Records(Settle(s, b, outcome, first, second).durable)
            == OutcomeFile(Records(s.durable), s.mem, b, outcome, first, second)
  {
  }

  function Do(ids: Ids, s: Sys, t: Step): Sys
    requires Enabled(ids, s, t)
  {
    match t
    case Enter(tid, b, now) =>
      if Entry(s.mem, s.inFlight, b, now).Proceed? then
        s.(inFlight := s.inFlight + {b.nonce}, threads := s.threads[tid := Thread(b, Probing)])
      else s
    case Probe(tid, probed, reach) =>
      if !probed then End(s, tid)
      else
        var s' := Write(s, RecordOf(s.threads[tid].pay, SIGNED), reach);
        if reach.Whole? then s'.(threads := s'.threads[tid := s'.threads[tid].(stage := Ready)]) else End(s', tid)
    case Sign(tid) =>
      var b := s.threads[tid].pay;
      s.(signatures := s.signatures + [Signature(b.nonce, b.intentHash)],
         threads := s.threads[tid := s.threads[tid].(stage := Signed)])
    case Finish(tid, outcome, first, second) => End(Settle(s, s.threads[tid].pay, outcome, first, second), tid)
    case Crash => s.(up := false, mem := [], inFlight := {}, threads := map[])
    case Start => s.(up := true, mem := Loaded(s.durable))
  }

  predicate Initial(s: Sys) {
    s == Sys(false, [], [], {}, map[], [])
  }

  ghost predicate Continues(ids: Ids, s: Sys, states: seq<Sys>, steps: seq<Step>) {
    && |states| == |steps| + 1
    && states[0] == s
    && forall k :: 0 <= k < |steps| ==> Enabled(ids, states[k], steps[k]) && states[k + 1] == Do(ids, states[k], steps[k])
  }

  ghost predicate Run(ids: Ids, states: seq<Sys>, steps: seq<Step>) {
    states != [] && Initial(states[0]) && Continues(ids, states[0], states, steps)
  }

  // ----- The invariant -----

  predicate Recorded(rs: seq<Record>, n: string, h: string) {
    Get(rs, n).Some? && Get(rs, n).value.intentHash == h
  }

  predicate Identified(ids: Ids, rs: seq<Record>) {
    Keyed(rs) && forall k :: 0 <= k < |rs| ==> rs[k].paymentId == ids(rs[k].intentHash, rs[k].nonce)
  }

  // Every durable record is in memory with the same hash.
  ghost predicate Covered(durable: seq<Record>, mem: seq<Record>) {
    forall n :: Get(durable, n).Some? ==> Recorded(mem, n, Get(durable, n).value.intentHash)
  }

  predicate Signing(signatures: seq<Signature>, n: string) {
    exists k :: 0 <= k < |signatures| && signatures[k].nonce == n
  }

  // Each signature is over its nonce's durable record, and no nonce has two.
  predicate SignedOnce(signatures: seq<Signature>, durable: seq<Record>) {
    && (forall k :: 0 <= k < |signatures| ==> Recorded(durable, signatures[k].nonce, signatures[k].intentHash))
    && (forall j, k :: 0 <= j < k < |signatures| ==> signatures[j].nonce != signatures[k].nonce)
  }

  predicate ThreadOk(ids: Ids, s: Sys, x: Thread) {
    var n, h := x.pay.nonce, x.pay.intentHash;
    && n in s.inFlight && x.pay.paymentId == ids(h, n)
    && match x.stage
       case Probing => Get(s.mem, n).None?
       case Ready => Recorded(s.durable, n, h) && Recorded(s.mem, n, h) && !Signing(s.signatures, n)
       case Signed => Recorded(s.durable, n, h) && Recorded(s.mem, n, h) && Signing(s.signatures, n)
  }

  predicate Apart(threads: map<nat, Thread>) {
    forall a, b :: a in threads && b in threads && threads[a].pay.nonce == threads[b].pay.nonce ==> a == b
  }

  ghost predicate Inv(ids: Ids, s: Sys) {
    && SignedOnce(s.signatures, s.durable)
    && Identified(ids, s.durable)
    && Apart(s.threads)
    && if s.up then
         && Identified(ids, s.mem) && Covered(s.durable, s.mem)
         && forall tid :: tid in s.threads ==> ThreadOk(ids, s, s.threads[tid])
       else s.mem == [] && s.threads == map[] && s.inFlight == {}
  }

  // ----- Writing a record -----

  lemma {:induction false} PutIdentified(ids: Ids, rs: seq<Record>, rec: Record)
    requires Identified(ids, rs) && rec.paymentId == ids(rec.intentHash, rec.nonce)
    ensures Identified(ids, Put(rs, rec))
  {
    PutKeyed(rs, rec);
    PutMembers(rs, rec);
  }

  lemma {:induction false} PutMembers(rs: seq<Record>, rec: Record)
    ensures forall k :: 0 <= k < |Put(rs, rec)| ==> Put(rs, rec)[k] == rec || Put(rs, rec)[k] in rs
  {
    if rs != [] && rs[0].nonce != rec.nonce {
      PutMembers(rs[1..], rec);
    }
  }

  // A write over a record of the same hash, or over none, keeps every hash there was.
  lemma WriteFacts(ids: Ids, s: Sys, rec: Record, reach: Reach)
    requires Identified(ids, s.mem) && Identified(ids, s.durable) && Covered(s.durable, s.mem)
    requires rec.paymentId == ids(rec.intentHash, rec.nonce)
    requires Get(s.mem, rec.nonce).Some? ==> Recorded(s.mem, rec.nonce, rec.intentHash)
    ensures var s' := Write(s, rec, reach);
            && Identified(ids, s'.mem) && Identified(ids, s'.durable) && Covered(s'.durable, s'.mem)
            && Recorded(s'.mem, rec.nonce, rec.intentHash)
            && (reach.Whole? ==> Recorded(s'.durable, rec.nonce, rec.intentHash))
            && (forall n, h :: Recorded(s.mem, n, h) ==> Recorded(s'.mem, n, h))
            && (forall n, h :: Recorded(s.durable, n, h) ==> Recorded(s'.durable, n, h))
            && (forall n :: n != rec.nonce ==> Get(s'.mem, n) == Get(s.mem, n))
  {
    PutIdentified(ids, s.mem, rec);
    PutGet(s.mem, rec);
    var s' := Write(s, rec, reach);
    forall n, h | Recorded(s.durable, n, h) ensures Recorded(s'.durable, n, h) {
      assert Recorded(s.mem, n, h);
    }
  }

  lemma MoreDurable(signatures: seq<Signature>, durable: seq<Record>, more: seq<Record>)
    requires SignedOnce(signatures, durable)
    requires forall n, h :: Recorded(durable, n, h) ==> Recorded(more, n, h)
    ensures SignedOnce(signatures, more)
  {
  }

  // One write by a running thread keeps the invariant.
  lemma WriteKeeps(ids: Ids, s: Sys, tid: nat, rec: Record, reach: Reach)
    requires Inv(ids, s) && s.up && tid in s.threads && rec == RecordOf(s.threads[tid].pay, rec.state)
    requires !s.threads[tid].stage.Probing?
    ensures Inv(ids, Write(s, rec, reach))
  {
    var s' := Write(s, rec, reach);
    assert ThreadOk(ids, s, s.threads[tid]);
    WriteFacts(ids, s, rec, reach);
    MoreDurable(s.signatures, s.durable, s'.durable);
    forall x | x in s'.threads ensures ThreadOk(ids, s', s'.threads[x]) {
      assert ThreadOk(ids, s, s.threads[x]);
    }
  }

  lemma EndKeeps(ids: Ids, s: Sys, tid: nat)
    requires Inv(ids, s) && s.up && tid in s.threads
    ensures Inv(ids, End(s, tid))
  {
    var s' := End(s, tid);
    forall x | x in s'.threads ensures ThreadOk(ids, s', s'.threads[x]) {
      assert ThreadOk(ids, s, s.threads[x]);
    }
  }

  // ----- One step at a time -----

  lemma EnterKeeps(ids: Ids, s: Sys, tid: nat, b: Pay, now: int)
    requires Inv(ids, s) && Enabled(ids, s, Enter(tid, b, now))
    ensures Inv(ids, Do(ids, s, Enter(tid, b, now)))
  {
    var s' := Do(ids, s, Enter(tid, b, now));
    forall x | x in s'.threads ensures ThreadOk(ids, s', s'.threads[x]) {
      if x in s.threads && x != tid { assert ThreadOk(ids, s, s.threads[x]); }
    }
    forall x | x in s.threads ensures s.threads[x].pay.nonce in s.inFlight {
      assert ThreadOk(ids, s, s.threads[x]);
    }
  }

  lemma ProbeKeeps(ids: Ids, s: Sys, tid: nat, reach: Reach)
    requires Inv(ids, s) && Enabled(ids, s, Probe(tid, true, reach))
    ensures Inv(ids, Do(ids, s, Probe(tid, true, reach)))
  {
    var b, s' := s.threads[tid].pay, Do(ids, s, Probe(tid, true, reach));
    var n := b.nonce;
    assert ThreadOk(ids, s, s.threads[tid]);
    WriteFacts(ids, s, RecordOf(b, SIGNED), reach);
    MoreDurable(s.signatures, s.durable, s'.durable);
    forall k | 0 <= k < |s.signatures| ensures s.signatures[k].nonce != n {
      assert Recorded(s.durable, s.signatures[k].nonce, s.signatures[k].intentHash);
    }
    forall x | x in s'.threads ensures ThreadOk(ids, s', s'.threads[x]) {
      assert ThreadOk(ids, s, s.threads[x]);
    }
  }

  lemma SigningAppend(signatures: seq<Signature>, x: Signature)
    ensures forall n :: Signing(signatures + [x], n) <==> n == x.nonce || Signing(signatures, n)
  {
    var more := signatures + [x];
    forall n ensures Signing(more, n) <==> n == x.nonce || Signing(signatures, n) {
      if Signing(signatures, n) {
        var k :| 0 <= k < |signatures| && signatures[k].nonce == n;
        assert more[k].nonce == n;
      }
      assert more[|signatures|] == x;
      if Signing(more, n) && n != x.nonce {
        var k :| 0 <= k < |more| && more[k].nonce == n;
        assert signatures[k].nonce == n;
      }
    }
  }

  lemma SignKeeps(ids: Ids, s: Sys, tid: nat)
    requires Inv(ids, s) && Enabled(ids, s, Sign(tid))
    ensures Inv(ids, Do(ids, s, Sign(tid)))
  {
    var b, s' := s.threads[tid].pay, Do(ids, s, Sign(tid));
    assert ThreadOk(ids, s, s.threads[tid]);
    assert forall k :: 0 <= k < |s.signatures| ==> s.signatures[k].nonce != b.nonce;
    SigningAppend(s.signatures, Signature(b.nonce, b.intentHash));
    forall x | x in s'.threads ensures ThreadOk(ids, s', s'.threads[x]) {
      assert ThreadOk(ids, s, s.threads[x]);
    }
  }

  lemma FinishKeeps(ids: Ids, s: Sys, tid: nat, outcome: Outcome, first: Reach, second: Reach)
    requires Inv(ids, s) && Enabled(ids, s, Finish(tid, outcome, first, second))
    ensures Inv(ids, Do(ids, s, Finish(tid, outcome, first, second)))
  {
    var b := s.threads[tid].pay;
    match outcome {
      case Delivered =>
        WriteKeeps(ids, s, tid, RecordOf(b, DELIVERED), first);
        var s1 := Write(s, RecordOf(b, DELIVERED), first);
        if !first.Whole? { WriteKeeps(ids, s1, tid, RecordOf(b, FAILED), second); }
      case SentThenFailed => WriteKeeps(ids, s, tid, RecordOf(b, RECONCILING), first);
      case Threw => WriteKeeps(ids, s, tid, RecordOf(b, FAILED), first);
    }
    EndKeeps(ids, Settle(s, b, outcome, first, second), tid);
  }

  lemma StepKeeps(ids: Ids, s: Sys, t: Step)
    requires Inv(ids, s) && Enabled(ids, s, t)
    ensures Inv(ids, Do(ids, s, t))
  {
    match t {
      case Enter(tid, b, now) => EnterKeeps(ids, s, tid, b, now);
      case Probe(tid, probed, reach) => if probed { ProbeKeeps(ids, s, tid, reach); } else { EndKeeps(ids, s, tid); }
      case Sign(tid) => SignKeeps(ids, s, tid);
      case Finish(tid, outcome, first, second) => FinishKeeps(ids, s, tid, outcome, first, second);
      case Crash =>
      case Start => LoadedIsWritten(s.durable);
    }
  }

  lemma {:induction false} InvAfter(ids: Ids, states: seq<Sys>, steps: seq<Step>)
    requires states != [] && Inv(ids, states[0]) && Continues(ids, states[0], states, steps)
    ensures Inv(ids, states[|steps|])
  {
    if steps != [] {
      var n := |steps| - 1;
      InvAfter(ids, states[..n + 1], steps[..n]);
      StepKeeps(ids, states[n], steps[n]);
    }
  }

  // ----- Main results -----

  // Over every interleaving of calls, crashes and restarts: no nonce is ever signed for twice, and
  // each signature is over terms that were durable first and still are.
  lemma OneSignaturePerNonce(ids: Ids, states: seq<Sys>, steps: seq<Step>)
    requires Run(ids, states, steps)
    ensures SignedOnce(states[|steps|].signatures, states[|steps|].durable)
  {
    InvAfter(ids, states, steps);
  }

  lemma HashStays(ids: Ids, s: Sys, t: Step, n: string, h: string)
    requires Inv(ids, s) && Enabled(ids, s, t)
    ensures Recorded(s.durable, n, h) ==> Recorded(Do(ids, s, t).durable, n, h)
    ensures s.up && Do(ids, s, t).up && Recorded(s.mem, n, h) ==> Recorded(Do(ids, s, t).mem, n, h)
  {
    match t {
      case Probe(tid, probed, reach) =>
        if probed {
          assert ThreadOk(ids, s, s.threads[tid]);
          WriteFacts(ids, s, RecordOf(s.threads[tid].pay, SIGNED), reach);
        }
      case Finish(tid, outcome, first, second) => SettleStays(ids, s, tid, outcome, first, second, n, h);
      case _ =>
    }
  }

  lemma SettleStays(ids: Ids, s: Sys, tid: nat, outcome: Outcome, first: Reach, second: Reach, n: string, h: string)
    requires Inv(ids, s) && Enabled(ids, s, Finish(tid, outcome, first, second))
    ensures var s' := Settle(s, s.threads[tid].pay, outcome, first, second);
            && (Recorded(s.durable, n, h) ==> Recorded(s'.durable, n, h))
            && (Recorded(s.mem, n, h) ==> Recorded(s'.mem, n, h))
  {
    var b := s.threads[tid].pay;
    assert ThreadOk(ids, s, s.threads[tid]);
    match outcome {
      case Delivered =>
        WriteFacts(ids, s, RecordOf(b, DELIVERED), first);
        if !first.Whole? { WriteFacts(ids, Write(s, RecordOf(b, DELIVERED), first), RecordOf(b, FAILED), second); }
      case SentThenFailed => WriteFacts(ids, s, RecordOf(b, RECONCILING), first);
      case Threw => WriteFacts(ids, s, RecordOf(b, FAILED), first);
    }
  }

  // A nonce's stored hash never changes, whatever happens next, crashes included.
  lemma {:induction false} StoredHashStable(ids: Ids, states: seq<Sys>, steps: seq<Step>, j: nat, n: string, h: string)
    requires Run(ids, states, steps) && j <= |steps| && Recorded(states[j].durable, n, h)
    ensures Recorded(states[|steps|].durable, n, h)
  {
    if j < |steps| {
      var k := |steps| - 1;
      StoredHashStable(ids, states[..k + 1], steps[..k], j, n, h);
      assert Run(ids, states[..k + 1], steps[..k]);
      InvAfter(ids, states[..k + 1], steps[..k]);
      assert states[..k + 1][k] == states[k];
      HashStays(ids, states[k], steps[k], n, h);
    }
  }

  // ----- What a signature was made on -----

  // The token is authentic and issued for this very hash, decision, amount and expiry; it approves
  // and has not run out.
  predicate Authorized(b: Pay, now: int) {
    && b.token.authentic && b.token.intentHash == b.intentHash && b.token.decision == b.decision
    && b.token.approvedAmount == b.amount && b.token.expiresAt == b.expiresAt
    && b.expiry.Some? && b.expiry.value > now
    && (b.decision == "AUTO_APPROVE" || b.decision == "HUMAN_APPROVED")
  }

  predicate EntersAuthorized(t: Step, n: string, h: string) {
    t.Enter? && t.b.nonce == n && t.b.intentHash == h && Authorized(t.b, t.now)
  }

  predicate Entered(steps: seq<Step>, k: nat, n: string, h: string)
    requires k <= |steps|
  {
    exists j :: 0 <= j < k && EntersAuthorized(steps[j], n, h)
  }

  lemma ThreadOfStep(ids: Ids, s: Sys, t: Step, tid: nat)
    requires Enabled(ids, s, t) && tid in Do(ids, s, t).threads
    ensures var b := Do(ids, s, t).threads[tid].pay;
            (tid in s.threads && s.threads[tid].pay == b) || EntersAuthorized(t, b.nonce, b.intentHash)
  {
    if t.Enter? { ProceedsExactly(s.mem, s.inFlight, t.b, t.now); }
  }

  lemma {:induction false} ThreadsEntered(ids: Ids, states: seq<Sys>, steps: seq<Step>, k: nat, tid: nat)
    requires Run(ids, states, steps) && k <= |steps| && tid in states[k].threads
    ensures Entered(steps, k, states[k].threads[tid].pay.nonce, states[k].threads[tid].pay.intentHash)
    decreases k
  {
    if k > 0 {
      ThreadOfStep(ids, states[k - 1], steps[k - 1], tid);
      if tid in states[k - 1].threads && states[k - 1].threads[tid].pay == states[k].threads[tid].pay {
        ThreadsEntered(ids, states, steps, k - 1, tid);
      }
    }
  }

  lemma SignatureOfStep(ids: Ids, s: Sys, t: Step, x: Signature)
    requires Enabled(ids, s, t) && x in Do(ids, s, t).signatures
    ensures x in s.signatures ||
            (t.Sign? && t.tid in s.threads && x == Signature(s.threads[t.tid].pay.nonce, s.threads[t.tid].pay.intentHash))
  {
  }

  // Every signature of every run, crashes included, is over the nonce and hash of a call whose token
  // authorized exactly that payment when it came in.
  lemma {:induction false} SignedIsAuthorized(ids: Ids, states: seq<Sys>, steps: seq<Step>, k: nat, x: Signature)
    requires Run(ids, states, steps) && k <= |steps| && x in states[k].signatures
    ensures Entered(steps, k, x.nonce, x.intentHash)
    decreases k
  {
    if k > 0 {
      SignatureOfStep(ids, states[k - 1], steps[k - 1], x);
      if x in states[k - 1].signatures {
        SignedIsAuthorized(ids, states, steps, k - 1, x);
      } else {
        ThreadsEntered(ids, states, steps, k - 1, steps[k - 1].tid);
      }
    }
  }

  // ----- What "payment not found" proves -----

  predicate NotFound(s: Sys, paymentId: string) {
    forall k :: 0 <= k < |s.mem| ==> s.mem[k].paymentId != paymentId
  }

  predicate Probes(s: Sys, n: string, h: string) {
    exists tid :: tid in s.threads && At(s, tid, Probing) && s.threads[tid].pay.nonce == n && s.threads[tid].pay.intentHash == h
  }

  predicate SignedFor(s: Sys, n: string, h: string) {
    exists k :: 0 <= k < |s.signatures| && s.signatures[k] == Signature(n, h)
  }

  predicate Reenters(steps: seq<Step>, n: string, h: string) {
    exists k :: 0 <= k < |steps| && steps[k].Enter? && steps[k].b.nonce == n && steps[k].b.intentHash == h
  }

  // Nothing was signed for the intent, and nothing is on its way to be.
  predicate Clean(s: Sys, n: string, h: string) {
    && !SignedFor(s, n, h)
    && forall tid :: tid in s.threads ==> s.threads[tid].pay.nonce != n || s.threads[tid].pay.intentHash != h
  }

  lemma CleanStays(ids: Ids, s: Sys, t: Step, n: string, h: string)
    requires Enabled(ids, s, t) && Clean(s, n, h) && !(t.Enter? && t.b.nonce == n && t.b.intentHash == h)
    ensures Clean(Do(ids, s, t), n, h)
  {
    var s' := Do(ids, s, t);
    assert forall k :: 0 <= k < |s.signatures| ==> s.signatures[k] != Signature(n, h);
    assert forall k :: 0 <= k < |s'.signatures| ==> s'.signatures[k] != Signature(n, h);
  }

  lemma {:induction false} CleanAfter(ids: Ids, states: seq<Sys>, steps: seq<Step>, n: string, h: string)
    requires states != [] && Continues(ids, states[0], states, steps) && Clean(states[0], n, h) && !Reenters(steps, n, h)
    ensures Clean(states[|steps|], n, h)
  {
    if steps != [] {
      var k := |steps| - 1;
      assert !Reenters(steps[..k], n, h);
      CleanAfter(ids, states[..k + 1], steps[..k], n, h);
      CleanStays(ids, states[k], steps[k], n, h);
    }
  }

  lemma {:induction false} GetFinds(rs: seq<Record>, n: string)
    ensures Get(rs, n).Some? ==> exists k :: 0 <= k < |rs| && rs[k] == Get(rs, n).value && rs[k].nonce == n
  {
    if rs != [] && rs[0].nonce != n {
      GetFinds(rs[1..], n);
      if Get(rs[1..], n).Some? {
        var k :| 0 <= k < |rs[1..]| && rs[1..][k] == Get(rs[1..], n).value && rs[1..][k].nonce == n;
        assert rs[k + 1] == rs[1..][k];
      }
    }
  }

  lemma NotFoundIsClean(ids: Ids, s: Sys, n: string, h: string)
    requires Inv(ids, s) && s.up && NotFound(s, ids(h, n))
    ensures !Recorded(s.mem, n, h) && !SignedFor(s, n, h)
    ensures !Probes(s, n, h) ==> Clean(s, n, h)
  {
    GetFinds(s.mem, n);
    assert SignedFor(s, n, h) ==> Recorded(s.durable, n, h);
    if !Probes(s, n, h) {
      forall tid | tid in s.threads ensures s.threads[tid].pay.nonce != n || s.threads[tid].pay.intentHash != h {
        assert ThreadOk(ids, s, s.threads[tid]);
        if s.threads[tid].stage.Probing? { assert At(s, tid, Probing); }
      }
    }
  }

  ghost predicate NeverSigned(ids: Ids, s: Sys, n: string, h: string) {
    forall states: seq<Sys>, steps ::
      Continues(ids, s, states, steps) && !Reenters(steps, n, h) ==> !SignedFor(states[|steps|], n, h)
  }

  // A probing call can still write its record and sign.
  lemma ProbingMaySign(ids: Ids, s: Sys, tid: nat, n: string, h: string)
    requires At(s, tid, Probing) && s.threads[tid].pay.nonce == n && s.threads[tid].pay.intentHash == h
    ensures !NeverSigned(ids, s, n, h)
  {
    var a, b := Probe(tid, true, Whole), Sign(tid);
    var s1 := Do(ids, s, a);
    var s2 := Do(ids, s1, b);
    var states, steps := [s, s1, s2], [a, b];
    assert Continues(ids, s, states, steps) && !Reenters(steps, n, h);
    assert s2.signatures[|s.signatures|] == Signature(n, h);
    assert SignedFor(states[|steps|], n, h);
  }

  // In every reachable state, "not found" means nothing was ever signed for the intent; and that
  // nothing will be, unless a new call brings it, exactly when no call for it is between its
  // entry and its record.
  lemma NotFoundExactly(ids: Ids, states: seq<Sys>, steps: seq<Step>, n: string, h: string)
    requires Run(ids, states, steps) && states[|steps|].up && NotFound(states[|steps|], ids(h, n))
    ensures !SignedFor(states[|steps|], n, h)
    ensures NeverSigned(ids, states[|steps|], n, h) <==> !Probes(states[|steps|], n, h)
  {
    var s := states[|steps|];
    InvAfter(ids, states, steps);
    NotFoundIsClean(ids, s, n, h);
    if Probes(s, n, h) {
      var tid :| At(s, tid, Probing) && s.threads[tid].pay.nonce == n && s.threads[tid].pay.intentHash == h;
      ProbingMaySign(ids, s, tid, n, h);
    } else {
      forall after: seq<Sys>, more | Continues(ids, s, after, more) && !Reenters(more, n, h)
        ensures !SignedFor(after[|more|], n, h)
      {
        CleanAfter(ids, after, more, n, h);
      }
    }
  }

  // ----- What a FAILED record proves -----

  predicate InState(rs: seq<Record>, n: string, state: PaymentState) {
    Get(rs, n).Some? && Get(rs, n).value.state == state
  }

  // A call that throws had not signed, and a delivery's record persists.
  predicate Orderly(s: Sys, t: Step) {
    t.Finish? ==> (t.outcome.Threw? ==> At(s, t.tid, Ready)) && (t.outcome.Delivered? ==> t.first.Whole?)
  }

  ghost predicate FailInv(s: Sys) {
    && (forall n :: InState(s.mem, n, FAILED) || InState(s.durable, n, FAILED) ==> !Signing(s.signatures, n))
    && (forall n :: InState(s.mem, n, FAILED) ==> Get(s.durable, n).Some?)
    && (forall tid :: tid in s.threads && !s.threads[tid].stage.Probing? ==>
          && InState(s.mem, s.threads[tid].pay.nonce, SIGNED) && InState(s.durable, s.threads[tid].pay.nonce, SIGNED))
  }

  lemma WriteStates(s: Sys, rec: Record, reach: Reach)
    ensures var s' := Write(s, rec, reach);
            && InState(s'.mem, rec.nonce, rec.state)
            && (reach.Whole? ==> InState(s'.durable, rec.nonce, rec.state))
            && (forall n :: n != rec.nonce ==> Get(s'.mem, n) == Get(s.mem, n))
            && (s'.durable == s.durable || s'.durable == s'.mem)
  {
    PutGet(s.mem, rec);
  }

  lemma FailProbe(ids: Ids, s: Sys, tid: nat, reach: Reach)
    requires Inv(ids, s) && FailInv(s) && Enabled(ids, s, Probe(tid, true, reach))
    ensures FailInv(Do(ids, s, Probe(tid, true, reach)))
  {
    var n, s' := s.threads[tid].pay.nonce, Do(ids, s, Probe(tid, true, reach));
    assert ThreadOk(ids, s, s.threads[tid]);
    WriteStates(s, RecordOf(s.threads[tid].pay, SIGNED), reach);
    forall x | x in s'.threads && !s'.threads[x].stage.Probing?
      ensures InState(s'.mem, s'.threads[x].pay.nonce, SIGNED) && InState(s'.durable, s'.threads[x].pay.nonce, SIGNED)
    {
      if x != tid { assert s.threads[x].pay.nonce != n; }
    }
  }

  lemma FailFinish(ids: Ids, s: Sys, tid: nat, outcome: Outcome, first: Reach, second: Reach)
    requires Inv(ids, s) && FailInv(s) && Enabled(ids, s, Finish(tid, outcome, first, second))
    requires Orderly(s, Finish(tid, outcome, first, second))
    ensures FailInv(Do(ids, s, Finish(tid, outcome, first, second)))
  {
    var b, s' := s.threads[tid].pay, Do(ids, s, Finish(tid, outcome, first, second));
    assert ThreadOk(ids, s, s.threads[tid]);
    var state := match outcome case Delivered => DELIVERED case SentThenFailed => RECONCILING case Threw => FAILED;
    WriteStates(s, RecordOf(b, state), first);
    forall x | x in s'.threads && !s'.threads[x].stage.Probing?
      ensures InState(s'.mem, s'.threads[x].pay.nonce, SIGNED) && InState(s'.durable, s'.threads[x].pay.nonce, SIGNED)
    {
      assert s.threads[x].pay.nonce != b.nonce;
    }
  }

  lemma FailSign(ids: Ids, s: Sys, tid: nat)
    requires Inv(ids, s) && FailInv(s) && Enabled(ids, s, Sign(tid))
    ensures FailInv(Do(ids, s, Sign(tid)))
  {
    var n, s' := s.threads[tid].pay.nonce, Do(ids, s, Sign(tid));
    assert forall x :: Signing(s'.signatures, x) ==> x == n || Signing(s.signatures, x);
  }

  lemma FailStep(ids: Ids, s: Sys, t: Step)
    requires Inv(ids, s) && FailInv(s) && Enabled(ids, s, t) && Orderly(s, t)
    ensures FailInv(Do(ids, s, t))
  {
    match t {
      case Probe(tid, probed, reach) => if probed { FailProbe(ids, s, tid, reach); }
      case Finish(tid, outcome, first, second) => FailFinish(ids, s, tid, outcome, first, second);
      case Sign(tid) => FailSign(ids, s, tid);
      case Start => LoadedIsWritten(s.durable);
      case _ =>
    }
  }

  lemma DisorderlyBreaks(ids: Ids, s: Sys, t: Step)
    requires Inv(ids, s) && Enabled(ids, s, t) && !Orderly(s, t)
    ensures !FailInv(Do(ids, s, t))
  {
    var Finish(tid, outcome, first, second) := t;
    var b := s.threads[tid].pay;
    assert ThreadOk(ids, s, s.threads[tid]);
    if outcome.Threw? {
      WriteStates(s, RecordOf(b, FAILED), first);
    } else {
      WriteStates(Write(s, RecordOf(b, DELIVERED), first), RecordOf(b, FAILED), second);
    }
    assert InState(Do(ids, s, t).mem, b.nonce, FAILED);
  }

  // Exactly the orderly steps keep a FAILED record's meaning.
  lemma FailedKeptExactly(ids: Ids, s: Sys, t: Step)
    requires Inv(ids, s) && FailInv(s) && Enabled(ids, s, t)
    ensures FailInv(Do(ids, s, t)) <==> Orderly(s, t)
  {
    if Orderly(s, t) { FailStep(ids, s, t); } else { DisorderlyBreaks(ids, s, t); }
  }

  // In a run where a throw comes only before the signature and deliveries persist, a FAILED
  // record means nothing was signed.
  lemma {:induction false} FailedMeansUnsigned(ids: Ids, states: seq<Sys>, steps: seq<Step>)
    requires Run(ids, states, steps)
    requires forall k :: 0 <= k < |steps| ==> Orderly(states[k], steps[k])
    ensures FailInv(states[|steps|])
  {
    if steps != [] {
      var k := |steps| - 1;
      FailedMeansUnsigned(ids, states[..k + 1], steps[..k]);
      InvAfter(ids, states[..k + 1], steps[..k]);
      assert states[..k + 1][k] == states[k];
      FailStep(ids, states[k], steps[k]);
    }
  }

  // A nonce whose record is durable, with nothing signed for it and nothing on its way to be.
  predicate Spent(s: Sys, n: string) {
    && Get(s.durable, n).Some? && (s.up ==> Get(s.mem, n).Some?)
    && !Signing(s.signatures, n)
    && forall tid :: tid in s.threads ==> s.threads[tid].pay.nonce != n
  }

  lemma FailedIsSpent(ids: Ids, s: Sys, n: string)
    requires Inv(ids, s) && FailInv(s) && InState(s.mem, n, FAILED)
    ensures Spent(s, n)
  {
    forall tid | tid in s.threads ensures s.threads[tid].pay.nonce != n {
      assert ThreadOk(ids, s, s.threads[tid]);
    }
  }

  // The endpoint answers a recorded nonce from its record, before and after a restart.
  lemma SpentStays(ids: Ids, s: Sys, t: Step, n: string)
    requires Inv(ids, s) && Spent(s, n) && Enabled(ids, s, t)
    ensures Spent(Do(ids, s, t), n)
  {
    if t.Start? { LoadedIsWritten(s.durable); }
    HashStays(ids, s, t, n, Get(s.durable, n).value.intentHash);
    if t.Sign? {
      SigningAppend(s.signatures, Signature(s.threads[t.tid].pay.nonce, s.threads[t.tid].pay.intentHash));
    }
    if s.up && !t.Crash? {
      HashStays(ids, s, t, n, Get(s.mem, n).value.intentHash);
    }
  }

  lemma {:induction false} SpentAfter(ids: Ids, states: seq<Sys>, steps: seq<Step>, n: string)
    requires states != [] && Inv(ids, states[0]) && Continues(ids, states[0], states, steps) && Spent(states[0], n)
    ensures Spent(states[|steps|], n)
  {
    if steps != [] {
      var k := |steps| - 1;
      SpentAfter(ids, states[..k + 1], steps[..k], n);
      InvAfter(ids, states[..k + 1], steps[..k]);
      assert states[..k + 1][k] == states[k];
      SpentStays(ids, states[k], steps[k], n);
    }
  }

  // No continuation signs for the nonce, whoever calls with it again and however often the process
  // dies and starts.
  ghost predicate SpentForGood(ids: Ids, s: Sys, n: string) {
    forall states: seq<Sys>, steps :: Continues(ids, s, states, steps) ==> !Signing(states[|steps|].signatures, n)
  }

  // After such a run a FAILED record means nothing ever will be signed for its nonce either.
  lemma FailedForGood(ids: Ids, states: seq<Sys>, steps: seq<Step>, n: string)
    requires Run(ids, states, steps) && InState(states[|steps|].mem, n, FAILED)
    requires forall k :: 0 <= k < |steps| ==> Orderly(states[k], steps[k])
    ensures SpentForGood(ids, states[|steps|], n)
  {
    var s := states[|steps|];
    InvAfter(ids, states, steps);
    FailedMeansUnsigned(ids, states, steps);
    FailedIsSpent(ids, s, n);
    forall after: seq<Sys>, more | Continues(ids, s, after, more) ensures !Signing(after[|more|].signatures, n) {
      SpentAfter(ids, after, more, n);
    }
  }

  // ----- What any record tells -----

  // What a call does that leaves a record in this state.
  predicate Tells(s: Sys, t: Step, n: string, state: PaymentState) {
    && (t.Probe? || t.Finish?) && t.tid in s.threads && s.threads[t.tid].pay.nonce == n
    && match state
       case SIGNED => t.Probe? && t.probed
       case DELIVERED => t.Finish? && t.outcome.Delivered?
       case RECONCILING => t.Finish? && t.outcome.SentThenFailed?
       case FAILED => t.Finish? && (t.outcome.Threw? || (t.outcome.Delivered? && !t.first.Whole?))
       case _ => false
  }

  predicate Holds(s: Sys, n: string, state: PaymentState) {
    InState(s.mem, n, state) || InState(s.durable, n, state)
  }

  lemma WriteHolds(s: Sys, rec: Record, reach: Reach, n: string, state: PaymentState)
    requires Holds(Write(s, rec, reach), n, state)
    ensures Holds(s, n, state) || (n == rec.nonce && state == rec.state)
  {
    PutGet(s.mem, rec);
  }

  lemma SettleHolds(s: Sys, b: Pay, outcome: Outcome, first: Reach, second: Reach, n: string, state: PaymentState)
    requires Holds(Settle(s, b, outcome, first, second), n, state)
    ensures Holds(s, n, state) ||
            (n == b.nonce &&
             match outcome
             case Delivered => state == DELIVERED || (state == FAILED && !first.Whole?)
             case SentThenFailed => state == RECONCILING
             case Threw => state == FAILED)
  {
    match outcome {
      case Delivered =>
        var s1 := Write(s, RecordOf(b, DELIVERED), first);
        if !first.Whole? { WriteHolds(s1, RecordOf(b, FAILED), second, n, state); }
        if Holds(s1, n, state) { WriteHolds(s, RecordOf(b, DELIVERED), first, n, state); }
      case SentThenFailed => WriteHolds(s, RecordOf(b, RECONCILING), first, n, state);
      case Threw => WriteHolds(s, RecordOf(b, FAILED), first, n, state);
    }
  }

  lemma StepTells(ids: Ids, s: Sys, t: Step, n: string, state: PaymentState)
    requires Inv(ids, s) && Enabled(ids, s, t) && Holds(Do(ids, s, t), n, state)
    ensures Holds(s, n, state) || Tells(s, t, n, state)
  {
    match t {
      case Probe(tid, probed, reach) => if probed { WriteHolds(s, RecordOf(s.threads[tid].pay, SIGNED), reach, n, state); }
      case Finish(tid, outcome, first, second) => SettleHolds(s, s.threads[tid].pay, outcome, first, second, n, state);
      case Start => LoadedIsWritten(s.durable);
      case _ =>
    }
  }

  // Every record of every run, in memory or in the file, tells what a call with its nonce did: it
  // was about to sign, delivered, may still settle, or failed; and no other state is ever written.
  lemma {:induction false} RecordsTell(ids: Ids, states: seq<Sys>, steps: seq<Step>, k: nat, n: string, state: PaymentState)
    requires Run(ids, states, steps) && k <= |steps| && Holds(states[k], n, state)
    ensures exists j :: 0 <= j < k && Tells(states[j], steps[j], n, state)
    decreases k
  {
    if k > 0 {
      assert Run(ids, states[..k], steps[..k - 1]);
      InvAfter(ids, states[..k], steps[..k - 1]);
      assert states[..k][k - 1] == states[k - 1];
      StepTells(ids, states[k - 1], steps[k - 1], n, state);
      if Holds(states[k - 1], n, state) {
        RecordsTell(ids, states, steps, k - 1, n, state);
      }
    }
  }

  function SignSteps(b: Pay, now: int): seq<Step> {
    [] + [Start] + [Enter(0, b, now)] + [Probe(0, true, Whole)] + [Sign(0)]
  }

  // One call alone, signed and submitted.
  function SignedAlone(b: Pay): Sys {
    var records := [RecordOf(b, SIGNED)];
    Sys(true, records, records, {b.nonce}, map[0 := Thread(b, Signed)], [Signature(b.nonce, b.intentHash)])
  }

  lemma SignRun(ids: Ids, b: Pay, now: int)
    requires b.paymentId == ids(b.intentHash, b.nonce) && Entry([], {}, b, now).Proceed?
    ensures After(Next(ids), Sys(false, [], [], {}, map[], []), SignSteps(b, now)) == Some(SignedAlone(b))
  {
    var next, rec := Next(ids), RecordOf(b, SIGNED);
    var s0 := Sys(false, [], [], {}, map[], []);
    var up := s0.(up := true);
    var probing := up.(inFlight := {b.nonce}, threads := map[0 := Thread(b, Probing)]);
    var ready := probing.(mem := [rec], durable := [rec], threads := map[0 := Thread(b, Ready)]);
    assert next(s0, Start) == Some(up);
    ThenOnce(next, s0, [], s0, Start, up);
    assert {} + {b.nonce} == {b.nonce};
    assert next(up, Enter(0, b, now)) == Some(probing);
    ThenOnce(next, s0, [] + [Start], up, Enter(0, b, now), probing);
    assert Put([], rec) == [rec] && probing.threads[0 := Thread(b, Ready)] == ready.threads;
    assert next(probing, Probe(0, true, Whole)) == Some(ready);
    ThenOnce(next, s0, [] + [Start] + [Enter(0, b, now)], probing, Probe(0, true, Whole), ready);
    assert ready.threads[0 := Thread(b, Signed)] == SignedAlone(b).threads;
    assert ready.signatures + [Signature(b.nonce, b.intentHash)] == SignedAlone(b).signatures;
    assert next(ready, Sign(0)) == Some(SignedAlone(b));
    ThenOnce(next, s0, [] + [Start] + [Enter(0, b, now)] + [Probe(0, true, Whole)], ready, Sign(0), SignedAlone(b));
  }

  function FailedAlone(b: Pay): Sys {
    var records := [RecordOf(b, FAILED)];
    Sys(true, records, records, {}, map[], [Signature(b.nonce, b.intentHash)])
  }

  const BAD_FINISH: Step := Finish(0, Delivered, BeforeWrite, Whole)

  lemma FinishBadly(ids: Ids, b: Pay)
    ensures Next(ids)(SignedAlone(b), BAD_FINISH) == Some(FailedAlone(b))
  {
    var signed, rec := SignedAlone(b), RecordOf(b, SIGNED);
    assert Put([rec], rec.(state := DELIVERED)) == [rec.(state := DELIVERED)];
    assert Put([rec.(state := DELIVERED)], rec.(state := FAILED)) == FailedAlone(b).mem;
    assert signed.threads - {0} == map[] && {b.nonce} - {b.nonce} == {};
  }

  // Without the second condition it does not: a delivered payment whose record fails to persist
  // once ends up FAILED, with its signature out.
  lemma DeliveredMayReadFailed(ids: Ids, b: Pay, now: int)
    requires b.paymentId == ids(b.intentHash, b.nonce) && Entry([], {}, b, now).Proceed?
    ensures exists states: seq<Sys>, steps ::
              && Run(ids, states, steps)
              && InState(states[|steps|].durable, b.nonce, FAILED) && SignedFor(states[|steps|], b.nonce, b.intentHash)
  {
    var s0 := Sys(false, [], [], {}, map[], []);
    SignRun(ids, b, now);
    FinishBadly(ids, b);
    ThenOnce(Next(ids), s0, SignSteps(b, now), SignedAlone(b), BAD_FINISH, FailedAlone(b));
    var states := RunTo(ids, s0, SignSteps(b, now) + [BAD_FINISH], FailedAlone(b));
    assert FailedAlone(b).signatures[0] == Signature(b.nonce, b.intentHash);
  }

  function Next(ids: Ids): (Sys, Step) -> Option<Sys> {
    (s, t) => if Enabled(ids, s, t) then Some(Do(ids, s, t)) else None
  }

  lemma RunTo(ids: Ids, s: Sys, steps: seq<Step>, end: Sys) returns (states: seq<Sys>)
    requires Initial(s) && After(Next(ids), s, steps) == Some(end)
    ensures Run(ids, states, steps) && states[|steps|] == end
  {
    TraceSteps(Next(ids), s, steps);
    states := Trace(Next(ids), s, steps);
    forall k | 0 <= k < |steps| ensures Enabled(ids, states[k], steps[k]) && states[k + 1] == Do(ids, states[k], steps[k]) {
      assert Next(ids)(states[k], steps[k]) == Some(states[k + 1]);
    }
  }
}
