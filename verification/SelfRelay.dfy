// The self-hosted facilitator (sidecar/src/self-facilitator.ts) and its Circle relayer
// (sidecar/src/circle-wallet.ts): a polling loop over transaction states with a deadline, and how
// a broadcast becomes settled, rejected or unknown.
module SelfRelay {
  import opened Wrappers
  import opened Letters
  import opened Seller

  // ----- What the relayer sees -----

  datatype Created = Accepted | HttpError(status: int) | Dropped

  datatype Poll = PollFailed | Transaction(state: string, txHash: Option<string>)

  datatype Submission = Hash(txHash: string) | NotBroadcast | Threw

  // 0x and sixty-four hex digits.
  predicate IsTxHash(h: string) {
    |h| == 66 && h[0] == '0' && h[1] == 'x' && forall k :: 2 <= k < 66 ==> HexValue(h[k]).Some?
  }

  function UsableHash(p: Poll): Option<string>
    requires p.Transaction?
  {
    if p.txHash.Some? && IsTxHash(p.txHash.value) then p.txHash else None
  }

  // What one poll settles, if anything.
  function Verdict(p: Poll): Option<Submission> {
    if p.PollFailed? then Some(Threw)
    else
      match p.state
      case "CONFIRMED" => if UsableHash(p).Some? then Some(Hash(UsableHash(p).value)) else None
      case "COMPLETE" => if UsableHash(p).Some? then Some(Hash(UsableHash(p).value)) else None
      case "FAILED" => if UsableHash(p).Some? then Some(Hash(UsableHash(p).value)) else Some(NotBroadcast)
      case "CANCELLED" => Some(NotBroadcast)
      case "DENIED" => Some(NotBroadcast)
      case _ => None
  }

  // The submission ends at poll `k`: nothing earlier settled it or ran past the deadline.
  ghost predicate EndsAt(polls: nat -> Poll, clock: nat -> int, deadline: int, k: nat, r: Submission) {
    && (forall j :: 0 <= j < k ==> Verdict(polls(j)).None? && clock(j) <= deadline)
    && r == (match Verdict(polls(k)) case Some(v) => v case None => Threw)
    && (Verdict(polls(k)).None? ==> clock(k) > deadline)
  }

  // It ends at some poll.
  ghost predicate Ends(polls: nat -> Poll, clock: nat -> int, deadline: int, r: Submission) {
    exists k: nat :: EndsAt(polls, clock, deadline, k, r)
  }

  // The polls are spaced by at least `pollMs`.
  ghost predicate Spaced(clock: nat -> int, begin: int, pollMs: int) {
    forall k: nat :: clock(k) >= begin + k * pollMs
  }

  class Relayer {
    const timeoutMs: nat
    const pollMs: nat

    constructor (timeoutMs: nat, pollMs: nat)
      ensures this.timeoutMs == timeoutMs && this.pollMs == pollMs
    {
      this.timeoutMs := timeoutMs;
      this.pollMs := pollMs;
    }

    // A 4xx is a refusal; any other failed creation may have been accepted. Then poll until a
    // verdict or the deadline, which the spacing of the polls bounds.
    method Submit(created: Created, begin: int, polls: nat -> Poll, clock: nat -> int)
      returns (r: Submission)
      requires pollMs > 0 && Spaced(clock, begin, pollMs)
      ensures match created
              case HttpError(status) => r == (if 400 <= status < 500 then NotBroadcast else Threw)
              case Dropped => r == Threw
              case Accepted => exists last: nat :: EndsAt(polls, clock, begin + timeoutMs, last, r) && last * pollMs <= timeoutMs + pollMs
    {
      match created {
        case HttpError(status) =>
          return if 400 <= status < 500 then NotBroadcast else Threw;
        case Dropped => return Threw;
        case Accepted =>
      }
      var deadline := begin + timeoutMs;
      var k: nat := 0;
      while true
        invariant forall j :: 0 <= j < k ==> Verdict(polls(j)).None? && clock(j) <= deadline
        invariant k > 0 ==> (k - 1) * pollMs <= timeoutMs
        decreases timeoutMs + pollMs - k * pollMs
      {
        var tx := polls(k);
        assert Verdict(tx).Some? ==> EndsAt(polls, clock, deadline, k, Verdict(tx).value);
        match tx {
          case PollFailed => return Threw;
          case Transaction(state, _) =>
            var hash := UsableHash(tx);
            match state {
              case "CONFIRMED" => if hash.Some? { return Hash(hash.value); }
              case "COMPLETE" => if hash.Some? { return Hash(hash.value); }
              case "FAILED" => return if hash.Some? then Hash(hash.value) else NotBroadcast;
              case "CANCELLED" => return NotBroadcast;
              case "DENIED" => return NotBroadcast;
              case _ =>
            }
        }
        if clock(k) > deadline {
          assert EndsAt(polls, clock, deadline, k, Threw);
          return Threw;
        }
        assert clock(k) >= begin + k * pollMs;
        k := k + 1;
      }
    }
  }

  // ----- From a broadcast to an outcome -----

  datatype Receipt = Success | Reverted | Unread

  // The lane a facilitator broadcasts through. The key lane yields a hash or throws.
  datatype Lane = NoLane | CircleLane | KeyLane

  datatype Attempt = Attempt(
    authorized: bool,
    parses: bool,
    loads: bool,
    created: Created,
    begin: int,
    polls: nat -> Poll,
    clock: nat -> int,
    keyHash: Option<string>,
    receipt: string -> Receipt)

  // What the submission of an attempt comes to where no loaded relayer is asked.
  function Submitted(lane: Lane, a: Attempt): Submission {
    if !a.parses then Threw
    else if lane.CircleLane? then NotBroadcast
    else match a.keyHash case Some(h) => Hash(h) case None => Threw
  }

  function OutcomeOf(s: Submission, receipt: string -> Receipt): Outcome {
    match s
    case NotBroadcast => Rejected
    case Threw => Unknown
    case Hash(h) =>
      match receipt(h)
      case Success => Settled(h)
      case Reverted => Rejected
      case Unread => Unknown
  }

  // What the relayer may answer for an attempt: by its creation, or by the poll it ended at.
  ghost predicate Relays(a: Attempt, timeoutMs: nat, relayed: Submission) {
    match a.created
    case HttpError(status) => relayed == if 400 <= status < 500 then NotBroadcast else Threw
    case Dropped => relayed == Threw
    case Accepted => Ends(a.polls, a.clock, a.begin + timeoutMs, relayed)
  }

  // What settling an attempt may answer.
  ghost predicate Answers(lane: Lane, timeoutMs: nat, a: Attempt, o: Outcome) {
    if lane.NoLane? then o == NotConfigured
    else if !a.authorized then o == Rejected
    else if lane.CircleLane? && a.parses && a.loads then
      exists relayed :: Relays(a, timeoutMs, relayed) && o == OutcomeOf(relayed, a.receipt)
    else o == OutcomeOf(Submitted(lane, a), a.receipt)
  }

  class SelfFacilitator {
    const lane: Lane
    const timeoutMs: nat
    const pollMs: nat
    var relayer: Option<Relayer>

    constructor (lane: Lane, timeoutMs: nat, pollMs: nat)
      ensures this.lane == lane && this.timeoutMs == timeoutMs && this.pollMs == pollMs && relayer == None
    {
      this.lane := lane;
      this.timeoutMs := timeoutMs;
      this.pollMs := pollMs;
      relayer := None;
    }

    ghost predicate Valid()
      reads this
    {
      relayer.Some? ==> relayer.value.timeoutMs == timeoutMs && relayer.value.pollMs == pollMs
    }

    // Loaded once; a failed load leaves nothing cached, so the next payment tries again.
    method CircleRelayer(loads: bool) returns (r: Option<Relayer>)
      requires Valid()
      modifies this`relayer
      ensures Valid()
      ensures r == relayer && (r.Some? <==> old(relayer).Some? || loads)
      ensures old(relayer).Some? ==> relayer == old(relayer)
    {
      if relayer.None? && loads {
        var loaded := new Relayer(timeoutMs, pollMs);
        relayer := Some(loaded);
      }
      return relayer;
    }

    method Settle(a: Attempt) returns (o: Outcome)
      requires Valid() && pollMs > 0 && Spaced(a.clock, a.begin, pollMs)
      requires relayer.Some? ==> a.loads
      modifies this`relayer
      ensures Valid()
      ensures Answers(lane, timeoutMs, a, o)
    {
      if lane == NoLane {
        return NotConfigured;
      }
      if !a.authorized {
        return Rejected;
      }
      if !a.parses {
        return Unknown;
      }
      var submission;
      if lane == CircleLane {
        var r := CircleRelayer(a.loads);
        if r.None? {
          return Rejected;
        }
        submission := r.value.Submit(a.created, a.begin, a.polls, a.clock);
        assert a.created.Accepted? ==> Ends(a.polls, a.clock, a.begin + timeoutMs, submission);
        assert Relays(a, timeoutMs, submission);
      } else {
        submission := match a.keyHash case Some(h) => Hash(h) case None => Threw;
      }
      match submission {
        case NotBroadcast => return Rejected;
        case Threw => return Unknown;
        case Hash(h) =>
          match a.receipt(h) {
            case Success => return Settled(h);
            case Reverted => return Rejected;
            case Unread => return Unknown;
          }
      }
    }
  }

  // ----- What each answer comes from -----

  predicate Carries(p: Poll) {
    p.Transaction? && p.txHash.Some? && IsTxHash(p.txHash.value)
  }

  // A transaction the relay must go on polling: under way, or named final with no usable hash yet.
  predicate Silent(p: Poll) {
    && p.Transaction?
    && p.state != "FAILED" && p.state != "CANCELLED" && p.state != "DENIED"
    && (p.state == "CONFIRMED" || p.state == "COMPLETE" ==> !Carries(p))
  }

  predicate Names(p: Poll, h: string) {
    && p.Transaction? && (p.state == "CONFIRMED" || p.state == "COMPLETE" || p.state == "FAILED")
    && p.txHash == Some(h) && IsTxHash(h)
  }

  predicate Denies(p: Poll) {
    && p.Transaction?
    && (p.state == "CANCELLED" || p.state == "DENIED"
        || (p.state == "FAILED" && !Carries(p)))
  }

  lemma VerdictByState(p: Poll)
    ensures Verdict(p).None? <==> Silent(p)
    ensures forall h :: Verdict(p) == Some(Hash(h)) <==> Names(p, h)
    ensures Verdict(p) == Some(NotBroadcast) <==> Denies(p)
    ensures Verdict(p) == Some(Threw) <==> p.PollFailed?
  {
  }

  // The poll a settlement ends at, the earlier ones silent and within the deadline, and what it and
  // the receipt make of the payment.
  ghost predicate DecidedAt(a: Attempt, deadline: int, k: nat, o: Outcome) {
    var p := a.polls(k);
    && (forall j :: 0 <= j < k ==> Silent(a.polls(j)) && a.clock(j) <= deadline)
    && (Silent(p) ==> a.clock(k) > deadline)
    && (forall h :: o == Settled(h) <==> Names(p, h) && a.receipt(h).Success?)
    && (o.Rejected? <==> Denies(p) || (Carries(p) && Names(p, p.txHash.value) && a.receipt(p.txHash.value).Reverted?))
    && (o.Unknown? <==> p.PollFailed? || Silent(p)
                        || (Carries(p) && Names(p, p.txHash.value) && a.receipt(p.txHash.value).Unread?))
    && !o.NotConfigured?
  }

  ghost predicate Decides(a: Attempt, deadline: int, o: Outcome) {
    exists k: nat :: DecidedAt(a, deadline, k, o)
  }

  lemma EndDecides(a: Attempt, deadline: int, s: Submission)
    requires Ends(a.polls, a.clock, deadline, s)
    ensures Decides(a, deadline, OutcomeOf(s, a.receipt))
  {
    var k: nat :| EndsAt(a.polls, a.clock, deadline, k, s);
    EndsDecided(a, deadline, k, s);
  }

  lemma EndsDecided(a: Attempt, deadline: int, k: nat, s: Submission)
    requires EndsAt(a.polls, a.clock, deadline, k, s)
    ensures DecidedAt(a, deadline, k, OutcomeOf(s, a.receipt))
  {
    VerdictByState(a.polls(k));
    forall j | 0 <= j < k ensures Silent(a.polls(j)) && a.clock(j) <= deadline {
      VerdictByState(a.polls(j));
    }
  }

  // Every answer of the Circle lane: a refused creation moves nothing, a lost one is unknown, and an
  // accepted one is decided by the first poll that says anything or by the deadline.
  lemma CircleAnswers(timeoutMs: nat, a: Attempt, o: Outcome)
    requires Answers(CircleLane, timeoutMs, a, o) && a.authorized && a.parses && a.loads
    ensures match a.created
            case HttpError(status) => o == if 400 <= status < 500 then Rejected else Unknown
            case Dropped => o == Unknown
            case Accepted => Decides(a, a.begin + timeoutMs, o)
  {
    var relayed :| Relays(a, timeoutMs, relayed) && o == OutcomeOf(relayed, a.receipt);
    if a.created.Accepted? {
      EndDecides(a, a.begin + timeoutMs, relayed);
    }
  }

  // And of the rest: no lane, no signature, no payload, no relayer, and the key lane's one hash.
  lemma OtherAnswers(lane: Lane, timeoutMs: nat, a: Attempt, o: Outcome)
    requires Answers(lane, timeoutMs, a, o) && !(lane.CircleLane? && a.authorized && a.parses && a.loads)
    ensures o == NotConfigured <==> lane.NoLane?
    ensures !lane.NoLane? && !a.authorized ==> o == Rejected
    ensures !lane.NoLane? && a.authorized && !a.parses ==> o == Unknown
    ensures lane.CircleLane? && a.authorized && a.parses ==> o == Rejected
    ensures lane.KeyLane? && a.authorized && a.parses ==>
              && (o.Settled? <==> a.keyHash.Some? && a.receipt(a.keyHash.value).Success?)
              && (o.Settled? ==> a.keyHash == Some(o.txHash))
              && (o == Rejected <==> a.keyHash.Some? && a.receipt(a.keyHash.value).Reverted?)
  {
  }

  // ----- Against the chain -----

  // What becomes of one attempt on the chain.
  datatype Fate = NeverBroadcast | Failed(txHash: string) | Landed(txHash: string)

  // What Circle's answers are taken to mean: a 4xx creation, a denied or cancelled transaction
  // and a hashless failure were never broadcast; a hash it reports is the attempt's own.
  ghost predicate CircleHonest(a: Attempt, fate: Fate) {
    && (a.created.HttpError? && 400 <= a.created.status < 500 ==> fate == NeverBroadcast)
    && (forall k :: Verdict(a.polls(k)) == Some(NotBroadcast) && a.created.Accepted? ==> fate == NeverBroadcast)
    && (forall k, h :: Verdict(a.polls(k)) == Some(Hash(h)) && a.created.Accepted? ==> Own(fate, h))
  }

  predicate Own(fate: Fate, h: string) {
    fate == Failed(h) || fate == Landed(h)
  }

  // A receipt is the chain's answer; nothing unauthorized, unparsed or unsent lands.
  ghost predicate ChainHonest(lane: Lane, a: Attempt, fate: Fate) {
    && (forall h :: Own(fate, h) && a.receipt(h).Success? ==> fate == Landed(h))
    && (forall h :: Own(fate, h) && a.receipt(h).Reverted? ==> fate == Failed(h))
    && (!a.authorized || !a.parses || lane.NoLane? || (lane.CircleLane? && !a.loads) ==> fate == NeverBroadcast)
    && (lane.KeyLane? && a.authorized && a.parses && a.keyHash.Some? ==> Own(fate, a.keyHash.value))
  }

  ghost predicate Honest(lane: Lane, a: Attempt, fate: Fate) {
    ChainHonest(lane, a, fate) && (lane.CircleLane? && a.authorized && a.parses && a.loads ==> CircleHonest(a, fate))
  }

  // Whatever Circle and the chain answer, in whatever order: a rejected settlement moved nothing,
  // and a settled one has the successful transaction it names.
  lemma AnswersSoundly(lane: Lane, timeoutMs: nat, a: Attempt, fate: Fate, o: Outcome)
    requires Answers(lane, timeoutMs, a, o) && Honest(lane, a, fate)
    ensures o.Rejected? || o.NotConfigured? ==> !fate.Landed?
    ensures o.Settled? ==> fate == Landed(o.txHash)
  {
  }

  method SettleSoundly(f: SelfFacilitator, a: Attempt, ghost fate: Fate) returns (o: Outcome)
    requires f.Valid() && f.pollMs > 0 && Spaced(a.clock, a.begin, f.pollMs)
    requires f.relayer.Some? ==> a.loads
    requires Honest(f.lane, a, fate)
    modifies f`relayer
    ensures f.Valid()
    ensures o.Rejected? || o.NotConfigured? ==> !fate.Landed?
    ensures o.Settled? ==> fate == Landed(o.txHash)
  {
    o := f.Settle(a);
    AnswersSoundly(f.lane, f.timeoutMs, a, fate, o);
  }
}
