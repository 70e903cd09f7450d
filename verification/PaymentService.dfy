// The sidecar's pay endpoint (sidecar/src/service.ts): concurrent calls interleaving at their
// awaits, a durable record before each signature, and restarts that lose the in-flight set.
module PaymentService {
  import opened Wrappers
  import opened PaymentStore

  // ----- One call, up to its first await -----

  datatype ApprovalToken = ApprovalToken(
    intentHash: string, decision: string, approvedAmount: string, expiresAt: string, authentic: bool)

  // What the entry checks read of a request; `expiry` is the parsed instant, if it parses.
  datatype Pay = Pay(
    nonce: string,
    intentHash: string,
    paymentId: string,
    wellFormed: bool,
    amount: string,
    decision: string,
    expiresAt: string,
    expiry: Option<int>,
    token: ApprovalToken)

  datatype Reply =
    | BadRequest
    | NonceReused(paymentId: string)
    | Replayed(rec: Record)
    | Unresolved(paymentId: string)
    | InFlight
    | TokenInvalid
    | HashMismatch
    | AmountMismatch
    | Expired
    | NotApproved
    | Proceed

  predicate Finished(state: PaymentState) {
    state == DELIVERED || state == SETTLED || state == FAILED || state == EXPIRED
  }

  // The synchronous stretch from entry to the probe.
  function Entry(records: seq<Record>, inFlight: set<string>, b: Pay, now: int): Reply {
    if !b.wellFormed then BadRequest
    else
      match Get(records, b.nonce)
      case Some(rec) =>
        if rec.intentHash != b.intentHash then NonceReused(rec.paymentId)
        else if Finished(rec.state) then Replayed(rec)
        else Unresolved(rec.paymentId)
      case None =>
        if b.nonce in inFlight then InFlight
        else if !b.token.authentic then TokenInvalid
        else if b.token.intentHash != b.intentHash then HashMismatch
        else if b.token.decision != b.decision || b.token.expiresAt != b.expiresAt then TokenInvalid
        else if b.token.approvedAmount != b.amount then AmountMismatch
        else if b.expiry.None? || b.expiry.value <= now then Expired
        else if b.decision != "AUTO_APPROVE" && b.decision != "HUMAN_APPROVED" then NotApproved
        else Proceed
  }

  // A call goes on to sign exactly for an unrecorded, idle nonce and an authentic token issued for
  // this very hash, decision, amount and expiry, unexpired and approving.
  lemma ProceedsExactly(records: seq<Record>, inFlight: set<string>, b: Pay, now: int)
    ensures Entry(records, inFlight, b, now).Proceed? <==>
              && b.wellFormed && Get(records, b.nonce).None? && b.nonce !in inFlight
              && b.token.authentic && b.token.intentHash == b.intentHash && b.token.decision == b.decision
              && b.token.approvedAmount == b.amount && b.token.expiresAt == b.expiresAt
              && b.expiry.Some? && b.expiry.value > now
              && (b.decision == "AUTO_APPROVE" || b.decision == "HUMAN_APPROVED")
  {
  }

  // A recorded nonce is answered from its record: refused on other terms, replayed once the payment
  // has ended, unresolved until then.
  lemma RecordedReplies(records: seq<Record>, inFlight: set<string>, b: Pay, now: int)
    requires b.wellFormed && Get(records, b.nonce).Some?
    ensures var r, rec := Entry(records, inFlight, b, now), Get(records, b.nonce).value;
            && (r == NonceReused(rec.paymentId) <==> rec.intentHash != b.intentHash)
            && (r == Replayed(rec) <==>
                  rec.intentHash == b.intentHash &&
                  (rec.state == DELIVERED || rec.state == SETTLED || rec.state == FAILED || rec.state == EXPIRED))
            && (r == Unresolved(rec.paymentId) <==>
                  rec.intentHash == b.intentHash &&
                  (rec.state == SIGNED || rec.state == SUBMITTED || rec.state == RECONCILING))
  {
  }

  // An unrecorded nonce is refused for the first fault in order.
  lemma FreshRefusals(records: seq<Record>, inFlight: set<string>, b: Pay, now: int)
    requires b.wellFormed && Get(records, b.nonce).None?
    ensures var r, t := Entry(records, inFlight, b, now), b.token;
            var divergent := t.decision != b.decision || t.expiresAt != b.expiresAt;
            && (r == InFlight <==> b.nonce in inFlight)
            && (r == TokenInvalid <==>
                  b.nonce !in inFlight && (!t.authentic || (t.intentHash == b.intentHash && divergent)))
            && (r == HashMismatch <==> b.nonce !in inFlight && t.authentic && t.intentHash != b.intentHash)
            && (r == AmountMismatch <==>
                  && b.nonce !in inFlight && t.authentic && t.intentHash == b.intentHash && !divergent
                  && t.approvedAmount != b.amount)
            && (r == Expired <==>
                  && b.nonce !in inFlight && t.authentic && t.intentHash == b.intentHash && !divergent
                  && t.approvedAmount == b.amount && (b.expiry.None? || b.expiry.value <= now))
            && (r == NotApproved <==>
                  && b.nonce !in inFlight && t.authentic && t.intentHash == b.intentHash && !divergent
                  && t.approvedAmount == b.amount && b.expiry.Some? && b.expiry.value > now
                  && b.decision != "AUTO_APPROVE" && b.decision != "HUMAN_APPROVED")
  {
  }

  class Service {
    var inFlight: set<string>
    const store: PaymentStore

    constructor (store: PaymentStore)
      ensures this.store == store && inFlight == {}
    {
      this.store := store;
      inFlight := {};
    }

    // A call either replies at once, leaving no trace, or goes on to probe with its nonce taken.
    method Begin(b: Pay, now: int) returns (r: Reply)
      modifies this`inFlight
      ensures r == Entry(store.byNonce, old(inFlight), b, now)
      ensures r.Proceed? <==>
                && b.wellFormed && Get(store.byNonce, b.nonce).None? && b.nonce !in old(inFlight)
                && b.token.authentic && b.token.intentHash == b.intentHash && b.token.decision == b.decision
                && b.token.approvedAmount == b.amount && b.token.expiresAt == b.expiresAt
                && b.expiry.Some? && b.expiry.value > now
                && (b.decision == "AUTO_APPROVE" || b.decision == "HUMAN_APPROVED")
      ensures inFlight == old(inFlight) + if r.Proceed? then {b.nonce} else {}
    {
      if !b.wellFormed {
        return BadRequest;
      }
      var existing := store.GetByNonce(b.nonce);
      if existing.Some? {
        if existing.value.intentHash != b.intentHash {
          return NonceReused(existing.value.paymentId);
        }
        if Finished(existing.value.state) {
          return Replayed(existing.value);
        }
        return Unresolved(existing.value.paymentId);
      }
      if b.nonce in inFlight {
        return InFlight;
      }
      inFlight := inFlight + {b.nonce};
      r := Proceed;
      if !b.token.authentic {
        r := TokenInvalid;
      } else if b.token.intentHash != b.intentHash {
        r := HashMismatch;
      } else if b.token.decision != b.decision || b.token.expiresAt != b.expiresAt {
        r := TokenInvalid;
      } else if b.token.approvedAmount != b.amount {
        r := AmountMismatch;
      } else if b.expiry.None? || b.expiry.value <= now {
        r := Expired;
      } else if b.decision != "AUTO_APPROVE" && b.decision != "HUMAN_APPROVED" {
        r := NotApproved;
      }
      if r != Proceed {
        inFlight := inFlight - {b.nonce};
      }
    }

    // After the probe: the durable record, then the signature may be made.
    method WriteAhead(b: Pay, probed: bool, reach: Reach) returns (sign: bool)
      requires store.Valid()
      modifies this`inFlight, store
      ensures store.Valid()
      ensures sign <==> probed && reach.Whole?
      ensures inFlight == if sign then old(inFlight) else old(inFlight) - {b.nonce}
      ensures store.byNonce == if probed then Put(old(store.byNonce), Record(b.paymentId, b.nonce, b.intentHash, SIGNED))
                               else old(store.byNonce)
      ensures store.file == if sign then Records(store.byNonce) else old(store.file)
    {
      if !probed {
        inFlight := inFlight - {b.nonce};
        return false;
      }
      sign := store.Upsert(Record(b.paymentId, b.nonce, b.intentHash, SIGNED), reach);
      if !sign {
        inFlight := inFlight - {b.nonce};
      }
    }

    // After the submission: the outcome record. A delivered payment whose record will not persist
    // falls into the failure handler, as any other exception does.
    method Finish(b: Pay, outcome: Outcome, first: Reach, second: Reach)
      requires store.Valid()
      modifies this`inFlight, store
      ensures store.Valid()
      ensures inFlight == old(inFlight) - {b.nonce}
      ensures store.byNonce == OutcomeRecords(old(store.byNonce), b, outcome, first)
      ensures store.file == OutcomeFile(old(store.file), old(store.byNonce), b, outcome, first, second)
      // The record says how it ended: a delivery that was recorded, one that may still settle, or a failure.
      ensures Get(store.byNonce, b.nonce) == Some(Record(b.paymentId, b.nonce, b.intentHash,
                if outcome.Delivered? && first.Whole? then DELIVERED
                else if outcome.SentThenFailed? then RECONCILING else FAILED))
    {
      PutGet(store.byNonce, Record(b.paymentId, b.nonce, b.intentHash, DELIVERED));
      PutGet(store.byNonce, Record(b.paymentId, b.nonce, b.intentHash, RECONCILING));
      PutGet(store.byNonce, Record(b.paymentId, b.nonce, b.intentHash, FAILED));
      if outcome.Delivered? {
        PutGet(Put(store.byNonce, Record(b.paymentId, b.nonce, b.intentHash, DELIVERED)),
               Record(b.paymentId, b.nonce, b.intentHash, FAILED));
        var ok := store.Upsert(Record(b.paymentId, b.nonce, b.intentHash, DELIVERED), first);
        if !ok {
          ok := store.Upsert(Record(b.paymentId, b.nonce, b.intentHash, FAILED), second);
        }
      } else {
        var state := if outcome.SentThenFailed? then RECONCILING else FAILED;
        var _ := store.Upsert(Record(b.paymentId, b.nonce, b.intentHash, state), first);
      }
      inFlight := inFlight - {b.nonce};
    }
  }

  // How a submission ends: accepted; refused or lost after the signature left; or any other throw.
  datatype Outcome = Delivered | SentThenFailed | Threw

  function OutcomeRecords(records: seq<Record>, b: Pay, outcome: Outcome, first: Reach): seq<Record> {
    var rec := Record(b.paymentId, b.nonce, b.intentHash, DELIVERED);
    match outcome
    case Delivered => if first.Whole? then Put(records, rec) else Put(Put(records, rec), rec.(state := FAILED))
    case SentThenFailed => Put(records, rec.(state := RECONCILING))
    case Threw => Put(records, rec.(state := FAILED))
  }

  // The file holds all the records of memory once some write of the outcome completes, and is
  // untouched until then.
  function OutcomeFile(file: Document, records: seq<Record>, b: Pay, outcome: Outcome, first: Reach, second: Reach): Document {
    if first.Whole? || (outcome.Delivered? && second.Whole?) then Records(OutcomeRecords(records, b, outcome, first)) else file
  }
}
