// The daemon's reconciliation against the sidecar's runs: what a release proves about the payment.
module Release {
  import opened Wrappers
  import opened PaymentStore
  import opened PaymentService
  import opened PaymentRuns
  import Budget
  import opened Decimals
  import Reconcile
  import Policy

  ghost predicate Injective(ids: Ids) {
    forall a, b, c, d :: ids(a, b) == ids(c, d) ==> a == c && b == d
  }

  function StateText(state: PaymentState): string {
    match state
    case SIGNED => "SIGNED"
    case SUBMITTED => "SUBMITTED"
    case DELIVERED => "DELIVERED"
    case RECONCILING => "RECONCILING"
    case SETTLED => "SETTLED"
    case FAILED => "FAILED"
    case EXPIRED => "EXPIRED"
  }

  // The first record with the id, in insertion order.
  function ById(rs: seq<Record>, paymentId: string): Option<Record> {
    if rs == [] then None else if rs[0].paymentId == paymentId then Some(rs[0]) else ById(rs[1..], paymentId)
  }

  // What a poll of the sidecar in state `s` answers.
  function StatusAnswer(s: Sys, paymentId: string, amountPaid: string): Reconcile.Answer {
    match ById(s.mem, paymentId)
    case None => Reconcile.NotFound
    case Some(rec) => Reconcile.Reply(StateText(rec.state), amountPaid)
  }

  lemma {:induction false} ByIdFinds(rs: seq<Record>, paymentId: string)
    ensures match ById(rs, paymentId)
            case None => forall k :: 0 <= k < |rs| ==> rs[k].paymentId != paymentId
            case Some(rec) => exists k :: 0 <= k < |rs| && rs[k] == rec && rec.paymentId == paymentId
  {
    if rs != [] && rs[0].paymentId != paymentId {
      ByIdFinds(rs[1..], paymentId);
      match ById(rs[1..], paymentId) {
        case None =>
          forall k | 0 <= k < |rs| ensures rs[k].paymentId != paymentId {
            if k > 0 { assert rs[k] == rs[1..][k - 1]; }
          }
        case Some(rec) =>
          var k :| 0 <= k < |rs[1..]| && rs[1..][k] == rec && rec.paymentId == paymentId;
          assert rs[k + 1] == rec;
      }
    }
  }

  lemma {:induction false} KeyedGet(rs: seq<Record>, k: nat)
    requires Keyed(rs) && k < |rs|
    ensures Get(rs, rs[k].nonce) == Some(rs[k])
  {
    if k > 0 {
      assert rs[0].nonce != rs[k].nonce;
      KeyedGet(rs[1..], k - 1);
    }
  }

  // ----- The service never writes EXPIRED -----

  predicate NoneExpired(rs: seq<Record>) {
    forall k :: 0 <= k < |rs| ==> rs[k].state != EXPIRED
  }

  lemma WriteUnexpired(s: Sys, rec: Record, reach: Reach)
    requires NoneExpired(s.mem) && NoneExpired(s.durable) && rec.state != EXPIRED
    ensures NoneExpired(Write(s, rec, reach).mem) && NoneExpired(Write(s, rec, reach).durable)
  {
    PutMembers(s.mem, rec);
  }

  lemma SettleUnexpired(s: Sys, b: Pay, outcome: Outcome, first: Reach, second: Reach)
    requires NoneExpired(s.mem) && NoneExpired(s.durable)
    ensures var s' := Settle(s, b, outcome, first, second); NoneExpired(s'.mem) && NoneExpired(s'.durable)
  {
    match outcome {
      case Delivered =>
        WriteUnexpired(s, RecordOf(b, DELIVERED), first);
        if !first.Whole? { WriteUnexpired(Write(s, RecordOf(b, DELIVERED), first), RecordOf(b, FAILED), second); }
      case SentThenFailed => WriteUnexpired(s, RecordOf(b, RECONCILING), first);
      case Threw => WriteUnexpired(s, RecordOf(b, FAILED), first);
    }
  }

  lemma UnexpiredStep(ids: Ids, s: Sys, t: Step)
    requires Inv(ids, s) && Enabled(ids, s, t) && NoneExpired(s.mem) && NoneExpired(s.durable)
    ensures NoneExpired(Do(ids, s, t).mem) && NoneExpired(Do(ids, s, t).durable)
  {
    match t {
      case Probe(tid, probed, reach) => WriteUnexpired(s, RecordOf(s.threads[tid].pay, SIGNED), reach);
      case Finish(tid, outcome, first, second) => SettleUnexpired(s, s.threads[tid].pay, outcome, first, second);
      case Start => LoadedIsWritten(s.durable);
      case _ =>
    }
  }

  lemma {:induction false} Unexpired(ids: Ids, states: seq<Sys>, steps: seq<Step>)
    requires Run(ids, states, steps)
    ensures NoneExpired(states[|steps|].mem) && NoneExpired(states[|steps|].durable)
  {
    if steps != [] {
      var k := |steps| - 1;
      Unexpired(ids, states[..k + 1], steps[..k]);
      InvAfter(ids, states[..k + 1], steps[..k]);
      assert states[..k + 1][k] == states[k];
      UnexpiredStep(ids, states[k], steps[k]);
    }
  }

  // ----- The main result -----

  // An open hold that reconciliation releases on the sidecar's answer, in a run where throws
  // precede signatures and deliveries persist, belongs to an intent nothing was signed for. On a
  // record nothing ever will be, re-entry and restarts included; on "not found", nothing will be
  // exactly when no call for it is still probing.
  lemma ReleasedMeansUnsigned(ids: Ids, states: seq<Sys>, steps: seq<Step>, n: string, h: string,
                              amountPaid: string, appended: bool)
    requires Injective(ids) && Run(ids, states, steps) && states[|steps|].up
    requires forall k :: 0 <= k < |steps| ==> Orderly(states[k], steps[k])
    requires Reconcile.Resolve(Budget.StillOpen, StatusAnswer(states[|steps|], ids(h, n), amountPaid), appended).0
             == Budget.Released
    ensures !SignedFor(states[|steps|], n, h)
    ensures StatusAnswer(states[|steps|], ids(h, n), amountPaid).NotFound? ==>
              (NeverSigned(ids, states[|steps|], n, h) <==> !Probes(states[|steps|], n, h))
    ensures StatusAnswer(states[|steps|], ids(h, n), amountPaid).Reply? ==> SpentForGood(ids, states[|steps|], n)
  {
    var s := states[|steps|];
    ByIdFinds(s.mem, ids(h, n));
    Reconcile.ClosesSoundly(StatusAnswer(s, ids(h, n), amountPaid), appended);
    match ById(s.mem, ids(h, n)) {
      case None => NotFoundExactly(ids, states, steps, n, h);
      case Some(rec) =>
        Unexpired(ids, states, steps);
        InvAfter(ids, states, steps);
        FailedMeansUnsigned(ids, states, steps);
        var k :| 0 <= k < |s.mem| && s.mem[k] == rec && rec.paymentId == ids(h, n);
        KeyedGet(s.mem, k);
        assert rec.state == FAILED;
        assert InState(s.mem, n, FAILED);
        FailedForGood(ids, states, steps, n);
    }
  }

  // A delivered record's answer commits the hold at the amount it says was paid.
  lemma DeliveredCommits(s: Sys, paymentId: string, paid: int)
    requires ById(s.mem, paymentId).Some? && ById(s.mem, paymentId).value.state == DELIVERED
    requires 0 <= paid <= Policy.MAX_INT64
    ensures Reconcile.Resolve(Budget.StillOpen, StatusAnswer(s, paymentId, Decimal(paid)), true)
            == (Budget.Committed(paid), None)
  {
    Reconcile.ClosesSoundly(StatusAnswer(s, paymentId, Decimal(paid)), true);
  }

  // And it commits on the sidecar's answer only for a payment some call delivered.
  lemma CommittedMeansDelivered(ids: Ids, states: seq<Sys>, steps: seq<Step>, n: string, h: string,
                                amountPaid: string, appended: bool)
    requires Injective(ids) && Run(ids, states, steps)
    requires Reconcile.Resolve(Budget.StillOpen, StatusAnswer(states[|steps|], ids(h, n), amountPaid), appended).0.Committed?
    ensures exists j :: 0 <= j < |steps| && Tells(states[j], steps[j], n, DELIVERED)
  {
    var s := states[|steps|];
    var answer := StatusAnswer(s, ids(h, n), amountPaid);
    Reconcile.ClosesSoundly(answer, appended);
    ByIdFinds(s.mem, ids(h, n));
    InvAfter(ids, states, steps);
    var rec := ById(s.mem, ids(h, n)).value;
    var k :| 0 <= k < |s.mem| && s.mem[k] == rec && rec.paymentId == ids(h, n);
    KeyedGet(s.mem, k);
    assert InState(s.mem, n, rec.state);
    RecordsTell(ids, states, steps, |steps|, n, rec.state);
  }
}
