// The paid-API seller's nonce ledger (sidecar/src/seller.ts, sidecar/src/release-policy.ts): one
// synchronous claim per request, and what each settlement outcome does to it.
module Seller {
  import opened Wrappers
  import opened Letters

  datatype NonceState = InFlight | Delivered | Pending

  datatype NonceRecord = NonceRecord(path: string, amount: string, payer: string, state: NonceState, settlement: string)

  type Nonces = map<string, NonceRecord>

  datatype Purchase = Purchase(nonce: string, path: string, amount: string, payer: string)

  datatype Claim = Claimed | AlreadySettling | Replay | Held(rec: NonceRecord)

  // What a presented nonce means, given the records.
  function Meaning(nonces: Nonces, p: Purchase): Claim {
    if p.nonce !in nonces then Claimed
    else
      var seen := nonces[p.nonce];
      if seen.state.InFlight? then AlreadySettling
      else if seen.state.Pending? && seen.path == p.path && seen.amount == p.amount && Lower(seen.payer) == Lower(p.payer)
      then Held(seen)
      else Replay
  }

  // Whether a delivery is still owed is asked of the record alone, and only its own buyer is told: the
  // same path, amount and payer, in whatever case, of a nonce whose settlement is not known.
  lemma MeaningExactly(nonces: Nonces, p: Purchase)
    ensures var c := Meaning(nonces, p);
            && (c == Claimed <==> p.nonce !in nonces)
            && (c == AlreadySettling <==> p.nonce in nonces && nonces[p.nonce].state == InFlight)
            && (c.Held? <==>
                  && p.nonce in nonces && nonces[p.nonce].state == Pending
                  && nonces[p.nonce].path == p.path && nonces[p.nonce].amount == p.amount
                  && Lower(nonces[p.nonce].payer) == Lower(p.payer))
            && (c.Held? ==> c.rec == nonces[p.nonce])
            && (c == Replay <==>
                  && p.nonce in nonces
                  && (nonces[p.nonce].state == Delivered ||
                      (nonces[p.nonce].state == Pending &&
                       (nonces[p.nonce].path != p.path || nonces[p.nonce].amount != p.amount
                        || Lower(nonces[p.nonce].payer) != Lower(p.payer)))))
  {
  }

  function Recorded(p: Purchase, state: NonceState, settlement: string): NonceRecord {
    NonceRecord(p.path, p.amount, p.payer, state, settlement)
  }

  const PENDING_SETTLEMENT: string := "PENDING_SETTLEMENT"
  const NOT_BROADCAST: string := "NOT_BROADCAST"

  datatype Outcome = Settled(txHash: string) | NotConfigured | Rejected | Unknown

  datatype Release = Deliver | RefuseUnsettled | RefuseRejected | RefuseUnknown

  function ReleaseDecision(o: Outcome, unsettledOk: bool): Release {
    match o
    case Settled(_) => Deliver
    case NotConfigured => if unsettledOk then Deliver else RefuseUnsettled
    case Rejected => RefuseRejected
    case Unknown => RefuseUnknown
  }

  function SettlementFor(o: Outcome): string {
    match o
    case Settled(txHash) => txHash
    case Unknown => PENDING_SETTLEMENT
    case _ => NOT_BROADCAST
  }

  // The records after a request ends with an outcome.
  function Concluded(nonces: Nonces, p: Purchase, o: Outcome, unsettledOk: bool): Nonces {
    match ReleaseDecision(o, unsettledOk)
    case Deliver => nonces[p.nonce := Recorded(p, Delivered, SettlementFor(o))]
    case RefuseUnknown => nonces[p.nonce := Recorded(p, Pending, SettlementFor(o))]
    case _ => nonces - {p.nonce}
  }

  class Seller {
    var spentNonces: Nonces
    const unsettledOk: bool

    constructor (unsettledOk: bool)
      ensures spentNonces == map[] && this.unsettledOk == unsettledOk
    {
      spentNonces := map[];
      this.unsettledOk := unsettledOk;
    }

    // Decide and claim in one synchronous block: whatever else the nonce meant, only a claim
    // changes the records.
    method ClaimNonce(p: Purchase) returns (claim: Claim)
      modifies this
      ensures claim == Meaning(old(spentNonces), p)
      ensures claim == Claimed <==> p.nonce !in old(spentNonces)
      ensures claim.Held? <==>
                && p.nonce in old(spentNonces) && old(spentNonces)[p.nonce].state == Pending
                && old(spentNonces)[p.nonce].path == p.path && old(spentNonces)[p.nonce].amount == p.amount
                && Lower(old(spentNonces)[p.nonce].payer) == Lower(p.payer)
      ensures spentNonces == if claim == Claimed then old(spentNonces)[p.nonce := Recorded(p, InFlight, "")]
                             else old(spentNonces)
    {
      if p.nonce in spentNonces {
        var seen := spentNonces[p.nonce];
        if seen.state == InFlight {
          return AlreadySettling;
        }
        var sameBuyer := Lower(seen.payer) == Lower(p.payer);
        if seen.state == Pending && seen.path == p.path && seen.amount == p.amount && sameBuyer {
          return Held(seen);
        }
        return Replay;
      }
      spentNonces := spentNonces[p.nonce := Recorded(p, InFlight, "")];
      return Claimed;
    }

    method Refuse(p: Purchase)
      modifies this
      ensures spentNonces == old(spentNonces) - {p.nonce}
    {
      spentNonces := spentNonces - {p.nonce};
    }

    // The tail of a request, from its settlement outcome on.
    method Conclude(p: Purchase, o: Outcome) returns (delivered: bool)
      modifies this
      ensures spentNonces == Concluded(old(spentNonces), p, o, unsettledOk)
      ensures delivered <==> o.Settled? || (o.NotConfigured? && unsettledOk)
      ensures delivered ==>
                p.nonce in spentNonces && spentNonces[p.nonce] ==
                  NonceRecord(p.path, p.amount, p.payer, Delivered, if o.Settled? then o.txHash else "NOT_BROADCAST")
      ensures o.Unknown? ==>
                p.nonce in spentNonces && spentNonces[p.nonce] ==
                  NonceRecord(p.path, p.amount, p.payer, Pending, "PENDING_SETTLEMENT")
      ensures !delivered && !o.Unknown? ==> p.nonce !in spentNonces
      ensures spentNonces - {p.nonce} == old(spentNonces) - {p.nonce}
    {
      var release := ReleaseDecision(o, unsettledOk);
      if release != Deliver {
        if release == RefuseUnsettled {
          spentNonces := spentNonces - {p.nonce};
          return false;
        } else if o == Rejected {
          spentNonces := spentNonces - {p.nonce};
          return false;
        } else {
          spentNonces := spentNonces[p.nonce := Recorded(p, Pending, SettlementFor(o))];
          return false;
        }
      }
      spentNonces := spentNonces[p.nonce := Recorded(p, Delivered, SettlementFor(o))];
      return true;
    }
  }
}
