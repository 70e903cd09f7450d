// What every step of the approval state machine keeps: how memory, the log and its replay, the
// submissions and executions in flight and the executor starts so far stand to each other.
module ApprovalInvariant {
  import opened Wrappers
  import opened Intents
  import opened Approval
  import opened ApprovalRuns

  // ----- The invariant -----

  // A request that carries its own identity, hash and expiry, and a lawful birth.
  predicate Sound(w: World, nonces: set<string>, id: Id, q: Request) {
    && w.ident(q.intent) == id && w.hash(q.intent) == q.hash && q.expiresAt == q.intent.expiresAt
    && q.intent.nonce in nonces && id != ""
    && (q.born == Pending || q.born == Approved)
    && (q.state == Approved ==> q.decidedBy != "")
    && (q.intent.kind == ADVANCE ==> q.born == Pending)
  }

  // The log and its replay: what replay makes of it is sound, a claim is logged at most once and
  // only for an opened request, an approval survives replay, and a payment's hold precedes it.
  ghost predicate LogInv(w: World, nonces: set<string>, log: seq<Event>, rep: Requests) {
    && (forall id :: id in rep ==> Sound(w, nonces, id, rep[id]) && !rep[id].waiting)
    && (forall id :: ClaimCount(log, id) == if id in rep && rep[id].executed then 1 else 0)
    && (forall id :: ApprovalLogged(log, id) <==> id in rep && rep[id].state == Approved)
    && (forall id :: id in rep && rep[id].intent.kind != ADVANCE ==> HoldLogged(log, id))
  }

  // How a request in memory may differ from its replay: a decision whose append failed, an expiry
  // the log never heard of, or a claim not yet logged.
  predicate Tracks(q: Request, rep: Request, now: Instant) {
    && q.hash == rep.hash && q.intent == rep.intent && q.born == rep.born && q.expiresAt == rep.expiresAt
    && (rep.executed ==> q.executed)
    && (q.waiting ==> q.state == Pending)
    && match q.state {
         case Pending => rep.state == Pending
         case Expired => rep.state == Expired || ((rep.state == Pending || rep.state == Approved) && now >= q.expiresAt)
         case _ => rep.state == q.state || rep.state == Pending
       }
  }

  // Every request in memory is a logged one, and tracks it.
  ghost predicate MemInv(w: World, now: Instant, nonces: set<string>, rep: Requests, mem: Requests) {
    forall id :: id in mem ==> id in rep && Sound(w, nonces, id, mem[id]) && Tracks(mem[id], rep[id], now)
  }

  // A submission is not yet visible, and is in the log exactly when its last append succeeded.
  predicate SubmissionOk(w: World, nonces: set<string>, rep: Requests, mem: Requests, n: string, sub: Submission) {
    && Sound(w, nonces, sub.id, sub.req) && sub.req.intent.nonce == n
    && sub.id !in mem
    && !sub.req.executed && sub.req.state == sub.req.born
    && (sub.req.waiting ==> sub.req.state == Pending)
    && (sub.stage == Logged <==> sub.id in rep)
    && (sub.stage == Logged ==> rep[sub.id] == sub.req.(waiting := false))
  }

  // A logged request is visible, or its submission is about to publish it.
  predicate Accounted(submits: map<string, Submission>, mem: Requests, id: Id, q: Request) {
    id in mem || (q.intent.nonce in submits && submits[q.intent.nonce].stage == Logged && submits[q.intent.nonce].id == id)
  }

  ghost predicate SubmitInv(w: World, nonces: set<string>, rep: Requests, mem: Requests,
                            submits: map<string, Submission>)
  {
    && (forall n :: n in submits ==> SubmissionOk(w, nonces, rep, mem, n, submits[n]))
    && (forall id :: id in rep ==> Accounted(submits, mem, id, rep[id]))
  }

  ghost predicate HoldInv(log: seq<Event>, submits: map<string, Submission>) {
    forall n :: n in submits && submits[n].stage == Held ==> HoldLogged(log, submits[n].id)
  }

  // Every gate held when the claim was made.
  predicate Gated(w: World, c: Claim) {
    && c.presented == c.bound && w.ident(c.bound) == c.id
    && c.state == Approved && c.decidedBy != ""
    && c.at < c.bound.expiresAt
    && c.bound.policyVersion == c.version
    && !Covered(c.frozen, c.bound)
    && (c.bound.kind == ADVANCE ==> c.born == Pending)
  }

  predicate Claiming(execs: map<nat, Execution>, id: Id) {
    exists tid :: tid in execs && execs[tid].claim.id == id
  }

  predicate Started(started: seq<Claim>, id: Id) {
    exists k :: 0 <= k < |started| && started[k].id == id
  }

  predicate ClaimedIn(rep: Requests, id: Id) {
    id in rep && rep[id].executed
  }

  // An execution owns its request's claim: nobody else holds it, and it has not started.
  predicate ExecutionOk(w: World, rep: Requests, mem: Requests, started: seq<Claim>, x: Execution) {
    && Gated(w, x.claim) && x.claim.id in mem && mem[x.claim.id].executed
    && (x.durable <==> ClaimedIn(rep, x.claim.id)) && !Started(started, x.claim.id)
  }

  ghost predicate ExecInv(w: World, rep: Requests, mem: Requests, execs: map<nat, Execution>, started: seq<Claim>) {
    && (forall tid :: tid in execs ==> ExecutionOk(w, rep, mem, started, execs[tid]))
    && (forall a, b :: a in execs && b in execs && execs[a].claim.id == execs[b].claim.id ==> a == b)
    && (forall id :: id in mem && mem[id].executed ==> ClaimedIn(rep, id) || Claiming(execs, id))
  }

  ghost predicate StartInv(w: World, rep: Requests, started: seq<Claim>) {
    && (forall k :: 0 <= k < |started| ==> Gated(w, started[k]) && ClaimedIn(rep, started[k].id))
    && (forall j, k :: 0 <= j < k < |started| ==> started[j].id != started[k].id)
  }

  ghost predicate LiveInv(w: World, s: Sys, rep: Requests) {
    if s.up then
      && MemInv(w, s.now, s.nonces, rep, s.mem)
      && SubmitInv(w, s.nonces, rep, s.mem, s.submits)
      && HoldInv(s.log, s.submits)
      && ExecInv(w, rep, s.mem, s.execs, s.started)
    else s.mem == map[] && s.submits == map[] && s.execs == map[] && s.sweeps == map[]
  }

  ghost predicate Inv(w: World, s: Sys) {
    var rep := Replay(s.log);
    LogInv(w, s.nonces, s.log, rep) && StartInv(w, rep, s.started) && LiveInv(w, s, rep)
  }

  lemma InitialInv(w: World, s: Sys)
    requires Initial(s)
    ensures Inv(w, s)
  {
  }

  // ----- Appending to the log -----

  // When the log may take an event.
  predicate Takes(w: World, nonces: set<string>, log: seq<Event>, rep: Requests, e: Event) {
    match e
    case Requested(id, _, intent, _, _) =>
      id !in rep && Sound(w, nonces, id, Opened(e)) && (intent.kind != ADVANCE ==> HoldLogged(log, id))
    case Decided(id, _, who) => id in rep && rep[id].state == Pending && who != ""
    case Lapsed(id) => id in rep && rep[id].state == Pending
    case Executing(id) => id in rep && !rep[id].executed
    case _ => true
  }

  lemma AppendRequest(w: World, nonces: set<string>, log: seq<Event>, e: Event)
    requires e.Requested? && LogInv(w, nonces, log, Replay(log)) && Takes(w, nonces, log, Replay(log), e)
    ensures LogInv(w, nonces, log + [e], Apply(Replay(log), e))
  {
    LogAppend(log, e);
  }

  lemma AppendDecision(w: World, nonces: set<string>, log: seq<Event>, e: Event)
    requires (e.Decided? || e.Lapsed?) && LogInv(w, nonces, log, Replay(log)) && Takes(w, nonces, log, Replay(log), e)
    ensures LogInv(w, nonces, log + [e], Apply(Replay(log), e))
  {
    LogAppend(log, e);
  }

  lemma AppendClaim(w: World, nonces: set<string>, log: seq<Event>, e: Event)
    requires e.Executing? && LogInv(w, nonces, log, Replay(log)) && Takes(w, nonces, log, Replay(log), e)
    ensures LogInv(w, nonces, log + [e], Apply(Replay(log), e))
  {
    LogAppend(log, e);
  }

  lemma AppendKeepsLog(w: World, nonces: set<string>, log: seq<Event>, e: Event)
    requires LogInv(w, nonces, log, Replay(log)) && Takes(w, nonces, log, Replay(log), e)
    ensures LogInv(w, nonces, log + [e], Replay(log + [e])) && Replay(log + [e]) == Apply(Replay(log), e)
    ensures forall id :: HoldLogged(log, id) ==> HoldLogged(log + [e], id)
  {
    match e {
      case Requested(_, _, _, _, _) => AppendRequest(w, nonces, log, e);
      case Decided(_, _, _) => AppendDecision(w, nonces, log, e);
      case Lapsed(_) => AppendDecision(w, nonces, log, e);
      case Executing(_) => AppendClaim(w, nonces, log, e);
      case _ =>
    }
    LogAppend(log, e);
  }

  lemma MoreNonces(w: World, nonces: set<string>, more: set<string>, log: seq<Event>, rep: Requests)
    requires LogInv(w, nonces, log, rep) && nonces <= more
    ensures LogInv(w, more, log, rep)
  {
  }

  // An event replay ignores leaves the whole invariant alone.
  lemma AppendAside(w: World, s: Sys, e: Event)
    requires Inv(w, s) && (e.Finished? || e.Evaluated? || e.HoldClosed? || e.Reserved?)
    ensures Inv(w, s.(log := s.log + [e]))
  {
    AppendKeepsLog(w, s.nonces, s.log, e);
  }

  // ----- One step at a time -----

  lemma WorldKeeps(w: World, s: Sys, o: WorldStep)
    requires Inv(w, s) && WorldEnabled(s, o)
    ensures Inv(w, WorldDo(s, o))
  {
    match o {
      case Audit(e) => AppendAside(w, s, e);
      case CloseHold(id) => AppendAside(w, s, HoldClosed(id));
      case _ =>
    }
  }

  // The ledger and the sweeper are outside the invariant.
  lemma BooksKeep(w: World, s: Sys, ledger: Ledger, sweeps: map<nat, Sweeping>, swept: set<Id>)
    requires Inv(w, s) && s.up
    ensures Inv(w, s.(ledger := ledger, sweeps := sweeps, swept := swept))
  {
  }

  // The sweeper touches nothing else, and logs at most one hold's closing.
  lemma SweepFacts(s: Sys, tid: nat, y: SweepStep)
    requires SweepEnabled(s, tid, y)
    ensures var s' := SweepDo(s, tid, y);
            && s' == s.(log := s'.log, ledger := s'.ledger, sweeps := s'.sweeps, swept := s'.swept)
            && (s'.log == s.log || exists id :: s'.log == s.log + [HoldClosed(id)])
  {
  }

  lemma SweepKeeps(w: World, s: Sys, tid: nat, y: SweepStep)
    requires Inv(w, s) && SweepEnabled(s, tid, y)
    ensures Inv(w, SweepDo(s, tid, y))
  {
    var s' := SweepDo(s, tid, y);
    SweepFacts(s, tid, y);
    if s'.log != s.log {
      var id :| s'.log == s.log + [HoldClosed(id)];
      AppendAside(w, s, HoldClosed(id));
    }
    BooksKeep(w, s.(log := s'.log), s'.ledger, s'.sweeps, s'.swept);
  }

  // Changing one visible request's state, in memory and in the replay, without touching its claim.
  lemma RestateMem(w: World, now: Instant, nonces: set<string>, rep: Requests, mem: Requests,
                   id: Id, q: Request, r: Request)
    requires MemInv(w, now, nonces, rep, mem) && Sound(w, nonces, id, q) && Tracks(q, r, now)
    ensures MemInv(w, now, nonces, rep[id := r], mem[id := q])
  {
  }

  lemma RestateSubmits(w: World, nonces: set<string>, rep: Requests, mem: Requests,
                       submits: map<string, Submission>, id: Id, q: Request, r: Request)
    requires SubmitInv(w, nonces, rep, mem, submits)
    requires id in mem && id in rep && r.intent == rep[id].intent
    ensures SubmitInv(w, nonces, rep[id := r], mem[id := q], submits)
  {
    forall n | n in submits ensures SubmissionOk(w, nonces, rep[id := r], mem[id := q], n, submits[n]) {
      assert SubmissionOk(w, nonces, rep, mem, n, submits[n]);
    }
    var rep' := rep[id := r];
    forall x | x in rep' ensures Accounted(submits, mem[id := q], x, rep'[x]) {
      assert Accounted(submits, mem, x, rep[x]);
    }
  }

  lemma RestateExecs(w: World, rep: Requests, mem: Requests, execs: map<nat, Execution>, started: seq<Claim>,
                     id: Id, q: Request, r: Request)
    requires ExecInv(w, rep, mem, execs, started) && StartInv(w, rep, started)
    requires id in mem && id in rep && q.executed == mem[id].executed && r.executed == rep[id].executed
    ensures ExecInv(w, rep[id := r], mem[id := q], execs, started) && StartInv(w, rep[id := r], started)
  {
    assert forall x :: ClaimedIn(rep[id := r], x) <==> ClaimedIn(rep, x);
    forall tid | tid in execs ensures ExecutionOk(w, rep[id := r], mem[id := q], started, execs[tid]) {
      assert ExecutionOk(w, rep, mem, started, execs[tid]);
    }
  }

  // Restating one request in memory alone.
  lemma RestateSilently(w: World, s: Sys, id: Id, q: Request)
    requires Inv(w, s) && s.up && id in s.mem && q.executed == s.mem[id].executed
    requires Sound(w, s.nonces, id, q) && Tracks(q, Replay(s.log)[id], s.now)
    ensures Inv(w, s.(mem := s.mem[id := q]))
  {
    var rep := Replay(s.log);
    assert rep[id := rep[id]] == rep;
    RestateMem(w, s.now, s.nonces, rep, s.mem, id, q, rep[id]);
    RestateSubmits(w, s.nonces, rep, s.mem, s.submits, id, q, rep[id]);
    RestateExecs(w, rep, s.mem, s.execs, s.started, id, q, rep[id]);
  }

  // Restating one request in memory and in the log, whose replay then says `r`.
  lemma RestateLoudly(w: World, s: Sys, id: Id, q: Request, e: Event, r: Request)
    requires Inv(w, s) && s.up && id in s.mem && q.executed == s.mem[id].executed && Sound(w, s.nonces, id, q)
    requires Takes(w, s.nonces, s.log, Replay(s.log), e) && Apply(Replay(s.log), e) == Replay(s.log)[id := r]
    requires r.intent == Replay(s.log)[id].intent && r.executed == Replay(s.log)[id].executed && Tracks(q, r, s.now)
    ensures Inv(w, s.(mem := s.mem[id := q], log := s.log + [e]))
  {
    var rep := Replay(s.log);
    AppendKeepsLog(w, s.nonces, s.log, e);
    RestateSubmits(w, s.nonces, rep, s.mem, s.submits, id, q, r);
    RestateExecs(w, rep, s.mem, s.execs, s.started, id, q, r);
    RestateMem(w, s.now, s.nonces, rep, s.mem, id, q, r);
  }

  // What one Decide does to the one request it names, in memory, in the log and in the replay.
  lemma DecisionFacts(w: World, s: Sys, rep: Requests, id: Id, kind: Option<Decision>, who: string, appended: bool)
    requires id in s.mem ==> id in rep && Sound(w, s.nonces, id, s.mem[id]) && Tracks(s.mem[id], rep[id], s.now)
    ensures var (_, mem, events) := DecideEffect(s.mem, id, kind, who, s.now, appended);
            || (mem == s.mem && events == [])
            || (&& id in s.mem && mem == s.mem[id := mem[id]]
                && mem[id].executed == s.mem[id].executed && Sound(w, s.nonces, id, mem[id])
                && (events == [] ==> Tracks(mem[id], rep[id], s.now))
                && (events != [] ==>
                    var e, r := events[0], Apply(rep, events[0]);
                    && events == [e] && Takes(w, s.nonces, s.log, rep, e)
                    && id in r && r == rep[id := r[id]] && Tracks(mem[id], r[id], s.now)
                    && r[id].intent == rep[id].intent && r[id].executed == rep[id].executed))
  {
  }

  lemma DecideKeeps(w: World, s: Sys, id: Id, kind: Option<Decision>, who: string, appended: bool)
    requires Inv(w, s) && s.up
    ensures Inv(w, DecideDo(s, id, kind, who, appended))
  {
    var (_, mem, events) := DecideEffect(s.mem, id, kind, who, s.now, appended);
    DecisionFacts(w, s, Replay(s.log), id, kind, who, appended);
    if events != [] {
      RestateLoudly(w, s, id, mem[id], events[0], Apply(Replay(s.log), events[0])[id]);
    } else {
      assert s.log + events == s.log;
      if mem != s.mem {
        RestateSilently(w, s, id, mem[id]);
      }
    }
  }

  // ----- Intake -----

  // A fresh nonce is a fresh request id: nothing in the log, in memory or in flight has it.
  lemma FreshId(w: World, s: Sys, intent: Intent)
    requires Collisionless(w) && Inv(w, s) && s.up && intent.nonce !in s.nonces
    ensures w.ident(intent) !in Replay(s.log) && w.ident(intent) !in s.mem && intent.nonce !in s.submits
  {
  }

  lemma BeginKeeps(w: World, s: Sys, presented: Intent, auto: bool)
    requires Collisionless(w) && Inv(w, s) && IntakeEnabled(s, presented.nonce, Begin(presented, auto))
    ensures Inv(w, IntakeDo(w, s, presented.nonce, Begin(presented, auto)))
  {
    var n, rep := presented.nonce, Replay(s.log);
    var sub := Beginning(w, s.version, presented, auto);
    FreshId(w, s, sub.req.intent);
    MoreNonces(w, s.nonces, s.nonces + {n}, s.log, rep);
    assert SubmissionOk(w, s.nonces + {n}, rep, s.mem, n, sub);
    AddSubmission(w, s.nonces, s.nonces + {n}, rep, s.mem, s.submits, n, sub);
    AddNonce(w, s.now, s.nonces, s.nonces + {n}, rep, s.mem);
  }

  lemma AddNonce(w: World, now: Instant, nonces: set<string>, more: set<string>, rep: Requests, mem: Requests)
    requires MemInv(w, now, nonces, rep, mem) && nonces <= more
    ensures MemInv(w, now, more, rep, mem)
  {
  }

  // Adding a submission, or moving one to another stage.
  lemma AddSubmission(w: World, nonces: set<string>, more: set<string>, rep: Requests, mem: Requests,
                      submits: map<string, Submission>, n: string, sub: Submission)
    requires SubmitInv(w, nonces, rep, mem, submits) && nonces <= more
    requires SubmissionOk(w, more, rep, mem, n, sub)
    requires n in submits ==> submits[n].stage != Logged
    ensures SubmitInv(w, more, rep, mem, submits[n := sub])
  {
    var submits' := submits[n := sub];
    forall x | x in submits' ensures SubmissionOk(w, more, rep, mem, x, submits'[x]) {
      if x != n { assert SubmissionOk(w, nonces, rep, mem, x, submits[x]); }
    }
    forall id | id in rep ensures Accounted(submits', mem, id, rep[id]) {
      assert Accounted(submits, mem, id, rep[id]);
    }
  }

  lemma HoldKeeps(w: World, s: Sys, n: string)
    requires Inv(w, s) && s.up && n in s.submits && s.submits[n].stage == NonceClaimed
    requires HoldLogged(s.log, s.submits[n].id)
    ensures Inv(w, s.(submits := s.submits[n := s.submits[n].(stage := Held)]))
  {
    var sub, rep := s.submits[n], Replay(s.log);
    assert SubmissionOk(w, s.nonces, rep, s.mem, n, sub);
    AddSubmission(w, s.nonces, s.nonces, rep, s.mem, s.submits, n, sub.(stage := Held));
  }

  lemma ReserveKeeps(w: World, s: Sys, n: string)
    requires Inv(w, s) && IntakeEnabled(s, n, IntakeStep.Reserve)
    ensures Inv(w, IntakeDo(w, s, n, IntakeStep.Reserve))
  {
    var s' := IntakeDo(w, s, n, IntakeStep.Reserve);
    var e := Reserved(s.submits[n].id, WholeSeconds(s.submits[n].req.intent.expiresAt));
    AppendAside(w, s, e);
    LogAppend(s.log, e);
    HoldKeeps(w, s.(log := s'.log), n);
    BooksKeep(w, s.(log := s'.log, submits := s'.submits), s'.ledger, s'.sweeps, s'.swept);
  }

  lemma LogRequestKeeps(w: World, s: Sys, n: string)
    requires Collisionless(w) && Inv(w, s) && IntakeEnabled(s, n, LogRequest)
    ensures Inv(w, IntakeDo(w, s, n, LogRequest))
  {
    var sub, rep := s.submits[n], Replay(s.log);
    assert SubmissionOk(w, s.nonces, rep, s.mem, n, sub);
    var q := Opened(RequestEvent(sub));
    assert q == sub.req.(waiting := false);
    AppendKeepsLog(w, s.nonces, s.log, RequestEvent(sub));
    LogSubmission(w, s.nonces, rep, s.mem, s.submits, n);
    OpenedKeepsExecs(w, rep, s.mem, s.execs, s.started, sub.id, q);
    AddNonceless(w, s.now, s.nonces, rep, s.mem, sub.id, q);
    LoggedKeepsHolds(s.log, s.log + [RequestEvent(sub)], s.submits, n);
  }

  lemma LoggedKeepsHolds(log: seq<Event>, more: seq<Event>, submits: map<string, Submission>, n: string)
    requires HoldInv(log, submits) && n in submits
    requires forall id :: HoldLogged(log, id) ==> HoldLogged(more, id)
    ensures HoldInv(more, submits[n := submits[n].(stage := Logged)])
  {
  }

  lemma AddNonceless(w: World, now: Instant, nonces: set<string>, rep: Requests, mem: Requests, id: Id, q: Request)
    requires MemInv(w, now, nonces, rep, mem) && id !in mem
    ensures MemInv(w, now, nonces, rep[id := q], mem)
  {
  }

  lemma OpenedKeepsExecs(w: World, rep: Requests, mem: Requests, execs: map<nat, Execution>, started: seq<Claim>,
                         id: Id, q: Request)
    requires ExecInv(w, rep, mem, execs, started) && StartInv(w, rep, started) && id !in rep && !q.executed
    ensures ExecInv(w, rep[id := q], mem, execs, started) && StartInv(w, rep[id := q], started)
  {
    assert forall x :: ClaimedIn(rep[id := q], x) <==> ClaimedIn(rep, x);
    forall tid | tid in execs ensures ExecutionOk(w, rep[id := q], mem, started, execs[tid]) {
      assert ExecutionOk(w, rep, mem, started, execs[tid]);
    }
  }

  // Two submissions never share a request id.
  lemma OtherIds(w: World, nonces: set<string>, rep: Requests, mem: Requests, submits: map<string, Submission>, n: string)
    requires Collisionless(w) && SubmitInv(w, nonces, rep, mem, submits) && n in submits
    ensures forall x :: x in submits && x != n ==> submits[x].id != submits[n].id
  {
    forall x | x in submits && x != n ensures submits[x].id != submits[n].id {
      assert SubmissionOk(w, nonces, rep, mem, x, submits[x]) && SubmissionOk(w, nonces, rep, mem, n, submits[n]);
      assert submits[x].req.intent != submits[n].req.intent;
    }
  }

  lemma LogSubmission(w: World, nonces: set<string>, rep: Requests, mem: Requests,
                      submits: map<string, Submission>, n: string)
    requires Collisionless(w) && SubmitInv(w, nonces, rep, mem, submits)
    requires n in submits && submits[n].stage != Logged
    ensures var sub := submits[n];
            SubmitInv(w, nonces, rep[sub.id := sub.req.(waiting := false)], mem, submits[n := sub.(stage := Logged)])
  {
    var sub := submits[n];
    var rep', submits' := rep[sub.id := sub.req.(waiting := false)], submits[n := sub.(stage := Logged)];
    OtherIds(w, nonces, rep, mem, submits, n);
    assert SubmissionOk(w, nonces, rep, mem, n, sub);
    forall x | x in submits' ensures SubmissionOk(w, nonces, rep', mem, x, submits'[x]) {
      if x != n {
        assert SubmissionOk(w, nonces, rep, mem, x, submits[x]);
      }
    }
    forall id | id in rep' ensures Accounted(submits', mem, id, rep'[id]) {
      if id != sub.id { assert Accounted(submits, mem, id, rep[id]); }
    }
  }

  lemma PublishParts(w: World, now: Instant, nonces: set<string>, rep: Requests, mem: Requests,
                     submits: map<string, Submission>, execs: map<nat, Execution>, started: seq<Claim>, n: string)
    requires Collisionless(w) && MemInv(w, now, nonces, rep, mem) && SubmitInv(w, nonces, rep, mem, submits)
    requires ExecInv(w, rep, mem, execs, started) && n in submits && submits[n].stage == Logged
    ensures var mem' := mem[submits[n].id := submits[n].req];
            && MemInv(w, now, nonces, rep, mem') && SubmitInv(w, nonces, rep, mem', submits - {n})
            && ExecInv(w, rep, mem', execs, started)
  {
    var sub := submits[n];
    assert SubmissionOk(w, nonces, rep, mem, n, sub);
    OtherIds(w, nonces, rep, mem, submits, n);
    PublishSubmission(w, nonces, rep, mem, submits, n);
    VisibleKeepsExecs(w, rep, mem, execs, started, sub.id, sub.req);
    assert rep[sub.id := rep[sub.id]] == rep;
    RestateMem(w, now, nonces, rep, mem, sub.id, sub.req, rep[sub.id]);
  }

  lemma PublishKeeps(w: World, s: Sys, n: string)
    requires Collisionless(w) && Inv(w, s) && IntakeEnabled(s, n, Publish)
    ensures Inv(w, IntakeDo(w, s, n, Publish))
  {
    PublishParts(w, s.now, s.nonces, Replay(s.log), s.mem, s.submits, s.execs, s.started, n);
  }

  lemma VisibleKeepsExecs(w: World, rep: Requests, mem: Requests, execs: map<nat, Execution>, started: seq<Claim>,
                          id: Id, q: Request)
    requires ExecInv(w, rep, mem, execs, started) && id !in mem && !q.executed
    ensures ExecInv(w, rep, mem[id := q], execs, started)
  {
    forall tid | tid in execs ensures ExecutionOk(w, rep, mem[id := q], started, execs[tid]) {
      assert ExecutionOk(w, rep, mem, started, execs[tid]);
    }
  }

  lemma PublishSubmission(w: World, nonces: set<string>, rep: Requests, mem: Requests,
                          submits: map<string, Submission>, n: string)
    requires SubmitInv(w, nonces, rep, mem, submits) && n in submits && submits[n].stage == Logged
    requires forall x :: x in submits && x != n ==> submits[x].id != submits[n].id
    ensures SubmitInv(w, nonces, rep, mem[submits[n].id := submits[n].req], submits - {n})
  {
    var id, mem', submits' := submits[n].id, mem[submits[n].id := submits[n].req], submits - {n};
    forall x | x in submits' ensures SubmissionOk(w, nonces, rep, mem', x, submits'[x]) {
      assert SubmissionOk(w, nonces, rep, mem, x, submits[x]);
    }
    forall x | x in rep ensures Accounted(submits', mem', x, rep[x]) {
      assert Accounted(submits, mem, x, rep[x]);
    }
  }

  lemma AbandonKeeps(w: World, s: Sys, n: string)
    requires Inv(w, s) && IntakeEnabled(s, n, Abandon)
    ensures Inv(w, IntakeDo(w, s, n, Abandon))
  {
    var rep, submits' := Replay(s.log), s.submits - {n};
    forall x | x in submits' ensures SubmissionOk(w, s.nonces, rep, s.mem, x, submits'[x]) {
      assert SubmissionOk(w, s.nonces, rep, s.mem, x, s.submits[x]);
    }
    forall id | id in rep ensures Accounted(submits', s.mem, id, rep[id]) {
      assert Accounted(s.submits, s.mem, id, rep[id]);
    }
  }

  lemma IntakeKeeps(w: World, s: Sys, n: string, i: IntakeStep)
    requires Collisionless(w) && Inv(w, s) && IntakeEnabled(s, n, i)
    ensures Inv(w, IntakeDo(w, s, n, i))
  {
    match i {
      case Begin(presented, auto) => BeginKeeps(w, s, presented, auto);
      case Reserve => ReserveKeeps(w, s, n);
      case LogRequest => LogRequestKeeps(w, s, n);
      case Publish => PublishKeeps(w, s, n);
      case Abandon => AbandonKeeps(w, s, n);
    }
  }

  // ----- Execution -----

  // A refused gate changes nothing, except that a request found elapsed is marked so; a passed one
  // claims exactly its request, with every gate held.
  lemma GateFacts(w: World, s: Sys, rep: Requests, id: Id, presented: Intent, frozenAtEntry: bool)
    requires Collisionless(w)
    requires id in s.mem ==> id in rep && Sound(w, s.nonces, id, s.mem[id]) && Tracks(s.mem[id], rep[id], s.now)
    ensures var (verdict, mem) := AdmitNow(w, s, id, presented, frozenAtEntry);
            if verdict == Admitted then
              && id in s.mem && !s.mem[id].executed && mem == s.mem[id := s.mem[id].(executed := true)]
              && Gated(w, ClaimOf(s, id, presented)) && Tracks(s.mem[id].(executed := true), rep[id], s.now)
            else
              || mem == s.mem
              || (&& id in s.mem && mem == s.mem[id := mem[id]] && mem[id].executed == s.mem[id].executed
                  && Sound(w, s.nonces, id, mem[id]) && Tracks(mem[id], rep[id], s.now))
  {
    if AdmitNow(w, s, id, presented, frozenAtEntry).0 == Admitted {
      assert w.hash(presented) == w.hash(s.mem[id].intent);
    }
  }

  lemma ClaimKeepsExecs(w: World, rep: Requests, mem: Requests, execs: map<nat, Execution>, started: seq<Claim>,
                        tid: nat, c: Claim)
    requires ExecInv(w, rep, mem, execs, started) && StartInv(w, rep, started)
    requires tid !in execs && Gated(w, c) && c.id in mem && !mem[c.id].executed && !ClaimedIn(rep, c.id)
    ensures ExecInv(w, rep, mem[c.id := mem[c.id].(executed := true)], execs[tid := Execution(c, false)], started)
  {
    var mem', execs' := mem[c.id := mem[c.id].(executed := true)], execs[tid := Execution(c, false)];
    forall x | x in execs' ensures ExecutionOk(w, rep, mem', started, execs'[x]) {
      if x != tid { assert ExecutionOk(w, rep, mem, started, execs[x]); }
    }
    forall x | x in execs ensures execs[x].claim.id != c.id {
      assert ExecutionOk(w, rep, mem, started, execs[x]);
    }
    assert execs'[tid].claim.id == c.id;
    forall id | id in mem' && mem'[id].executed ensures ClaimedIn(rep, id) || Claiming(execs', id) {
      if id != c.id && !ClaimedIn(rep, id) {
        var x :| x in execs && execs[x].claim.id == id;
        assert execs'[x].claim.id == id;
      }
    }
  }

  lemma AdmittedKeeps(w: World, s: Sys, tid: nat, c: Claim)
    requires Inv(w, s) && s.up && tid !in s.execs
    requires Gated(w, c) && c.id in s.mem && !s.mem[c.id].executed
    requires Tracks(s.mem[c.id].(executed := true), Replay(s.log)[c.id], s.now)
    ensures Inv(w, s.(mem := s.mem[c.id := s.mem[c.id].(executed := true)], execs := s.execs[tid := Execution(c, false)]))
  {
    var rep, q := Replay(s.log), s.mem[c.id].(executed := true);
    assert Tracks(s.mem[c.id], rep[c.id], s.now);
    ClaimKeepsExecs(w, rep, s.mem, s.execs, s.started, tid, c);
    assert rep[c.id := rep[c.id]] == rep;
    RestateMem(w, s.now, s.nonces, rep, s.mem, c.id, q, rep[c.id]);
    RestateSubmits(w, s.nonces, rep, s.mem, s.submits, c.id, q, rep[c.id]);
  }

  lemma GateKeeps(w: World, s: Sys, tid: nat, id: Id, presented: Intent, frozenAtEntry: bool)
    requires Collisionless(w) && Inv(w, s) && ExecEnabled(s, tid, Gate(id, presented, frozenAtEntry))
    ensures Inv(w, ExecDo(w, s, tid, Gate(id, presented, frozenAtEntry)))
  {
    GateFacts(w, s, Replay(s.log), id, presented, frozenAtEntry);
    var (verdict, mem) := AdmitNow(w, s, id, presented, frozenAtEntry);
    if verdict == Admitted {
      AdmittedKeeps(w, s, tid, ClaimOf(s, id, presented));
    } else if mem != s.mem {
      RestateSilently(w, s, id, mem[id]);
    }
  }

  // The claim an execution holds becomes durable.
  lemma LogClaimKeepsExecs(w: World, rep: Requests, mem: Requests, execs: map<nat, Execution>, started: seq<Claim>,
                           tid: nat)
    requires ExecInv(w, rep, mem, execs, started) && StartInv(w, rep, started)
    requires tid in execs && execs[tid].claim.id in rep
    ensures var id := execs[tid].claim.id;
            var rep' := rep[id := rep[id].(executed := true)];
            ExecInv(w, rep', mem, execs[tid := execs[tid].(durable := true)], started) && StartInv(w, rep', started)
  {
    var id := execs[tid].claim.id;
    var rep', execs' := rep[id := rep[id].(executed := true)], execs[tid := execs[tid].(durable := true)];
    assert forall x :: ClaimedIn(rep', x) <==> x == id || ClaimedIn(rep, x);
    forall x | x in execs' ensures ExecutionOk(w, rep', mem, started, execs'[x]) {
      assert ExecutionOk(w, rep, mem, started, execs[x]);
    }
    forall x | x in mem && mem[x].executed ensures ClaimedIn(rep', x) || Claiming(execs', x) {
      if x != id && !ClaimedIn(rep, x) {
        var t :| t in execs && execs[t].claim.id == x;
        assert execs'[t].claim.id == x;
      }
    }
  }

  lemma LogClaimKeeps(w: World, s: Sys, tid: nat)
    requires Inv(w, s) && ExecEnabled(s, tid, LogClaim)
    ensures Inv(w, ExecDo(w, s, tid, LogClaim))
  {
    var rep, id := Replay(s.log), s.execs[tid].claim.id;
    assert ExecutionOk(w, rep, s.mem, s.started, s.execs[tid]);
    AppendKeepsLog(w, s.nonces, s.log, Executing(id));
    var q, r := s.mem[id], rep[id].(executed := true);
    assert s.mem[id := q] == s.mem;
    RestateMem(w, s.now, s.nonces, rep, s.mem, id, q, r);
    RestateSubmits(w, s.nonces, rep, s.mem, s.submits, id, q, r);
    LogClaimKeepsExecs(w, rep, s.mem, s.execs, s.started, tid);
  }

  // An execution lets its undurable claim go.
  lemma DropClaimKeepsExecs(w: World, rep: Requests, mem: Requests, execs: map<nat, Execution>, started: seq<Claim>,
                            tid: nat)
    requires ExecInv(w, rep, mem, execs, started) && tid in execs && !execs[tid].durable
    ensures ExecInv(w, rep, Unclaim(mem, execs[tid].claim.id), execs - {tid}, started)
  {
    var id := execs[tid].claim.id;
    var mem', execs' := Unclaim(mem, id), execs - {tid};
    assert ExecutionOk(w, rep, mem, started, execs[tid]);
    forall x | x in execs' ensures ExecutionOk(w, rep, mem', started, execs'[x]) {
      assert ExecutionOk(w, rep, mem, started, execs[x]);
    }
    forall x | x in mem' && mem'[x].executed ensures ClaimedIn(rep, x) || Claiming(execs', x) {
      if !ClaimedIn(rep, x) {
        var t :| t in execs && execs[t].claim.id == x;
        assert execs'[t].claim.id == x;
      }
    }
  }

  lemma DropClaimKeeps(w: World, s: Sys, tid: nat)
    requires Inv(w, s) && ExecEnabled(s, tid, DropClaim)
    ensures Inv(w, ExecDo(w, s, tid, DropClaim))
  {
    var rep, id := Replay(s.log), s.execs[tid].claim.id;
    assert ExecutionOk(w, rep, s.mem, s.started, s.execs[tid]);
    var q := s.mem[id].(executed := false);
    assert rep[id := rep[id]] == rep;
    assert Tracks(s.mem[id], rep[id], s.now) && Sound(w, s.nonces, id, s.mem[id]);
    RestateMem(w, s.now, s.nonces, rep, s.mem, id, q, rep[id]);
    RestateSubmits(w, s.nonces, rep, s.mem, s.submits, id, q, rep[id]);
    DropClaimKeepsExecs(w, rep, s.mem, s.execs, s.started, tid);
  }

  // A durable claim starts its executor.
  lemma StartKeepsExecs(w: World, rep: Requests, mem: Requests, execs: map<nat, Execution>, started: seq<Claim>,
                        tid: nat)
    requires ExecInv(w, rep, mem, execs, started) && StartInv(w, rep, started) && tid in execs && execs[tid].durable
    ensures ExecInv(w, rep, mem, execs - {tid}, started + [execs[tid].claim])
    ensures StartInv(w, rep, started + [execs[tid].claim])
  {
    var c, execs' := execs[tid].claim, execs - {tid};
    var started' := started + [c];
    assert ExecutionOk(w, rep, mem, started, execs[tid]);
    assert forall k :: 0 <= k < |started| ==> started[k].id != c.id;
    forall x | x in execs' ensures ExecutionOk(w, rep, mem, started', execs'[x]) {
      assert ExecutionOk(w, rep, mem, started, execs[x]);
      assert forall k :: 0 <= k < |started'| ==> started'[k].id != execs[x].claim.id;
    }
    forall x | x in mem && mem[x].executed ensures ClaimedIn(rep, x) || Claiming(execs', x) {
      if !ClaimedIn(rep, x) {
        var t :| t in execs && execs[t].claim.id == x;
        assert execs'[t].claim.id == x;
      }
    }
  }

  lemma ExecKeeps(w: World, s: Sys, tid: nat, x: ExecStep)
    requires Collisionless(w) && Inv(w, s) && ExecEnabled(s, tid, x)
    ensures Inv(w, ExecDo(w, s, tid, x))
  {
    match x {
      case Gate(id, presented, frozenAtEntry) => GateKeeps(w, s, tid, id, presented, frozenAtEntry);
      case LogClaim => LogClaimKeeps(w, s, tid);
      case DropClaim => DropClaimKeeps(w, s, tid);
      case Start => StartKeepsExecs(w, Replay(s.log), s.mem, s.execs, s.started, tid);
    }
  }

  lemma StepKeeps(w: World, s: Sys, t: Step)
    requires Collisionless(w) && Inv(w, s) && Enabled(w, s, t)
    ensures Inv(w, Do(w, s, t))
  {
    match t {
      case Outside(o) => WorldKeeps(w, s, o);
      case Intake(n, i) => IntakeKeeps(w, s, n, i);
      case Decide(id, kind, who, appended) => DecideKeeps(w, s, id, kind, who, appended);
      case Exec(tid, x) => ExecKeeps(w, s, tid, x);
      case Sweep(tid, y) => SweepKeeps(w, s, tid, y);
    }
  }

  lemma {:induction false} RunInv(w: World, states: seq<Sys>, steps: seq<Step>)
    requires Collisionless(w) && Run(w, states, steps)
    ensures forall k :: 0 <= k < |states| ==> Inv(w, states[k])
  {
    if steps == [] {
      InitialInv(w, states[0]);
    } else {
      var n := |steps| - 1;
      RunInv(w, states[..n + 1], steps[..n]);
      assert Inv(w, states[..n + 1][n]);
      StepKeeps(w, states[n], steps[n]);
      forall k | 0 <= k < |states| ensures Inv(w, states[k]) {
        if k <= n { assert Inv(w, states[..n + 1][k]); }
      }
    }
  }
}
