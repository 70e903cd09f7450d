// The expiry sweeper against the executor: which intents can have their hold released as expired
// and still be paid (daemon/internal/budget/budget.go, daemon/cmd/snapfall/main.go).
module SweeperSafety {
  import opened Wrappers
  import opened Intents
  import opened Approval
  import opened ApprovalRuns
  import opened ApprovalInvariant
  import opened ApprovalSafety
  import opened Traces
  import Budget

  // ----- What the books say about one intent -----

  // An intent the ledger would hold and the sweeper can find elapsed.
  predicate Sweepable(i: Intent) {
    Budget.Openable(i) && WholeSeconds(i.expiresAt) != Budget.ZERO_TIME
  }

  // Only an openable intent has a hold, and one with an expiry carries it at second precision.
  predicate BookOk(w: World, ledger: Ledger, i: Intent) {
    w.ident(i) in ledger && ledger[w.ident(i)].reserved ==>
      && Budget.Openable(i)
      && (ledger[w.ident(i)].expiry.Some? ==> Sweepable(i) && ledger[w.ident(i)].expiry.value == WholeSeconds(i.expiresAt))
  }

  // The request can no longer execute, and never has.
  ghost predicate Gone(w: World, s: Sys, i: Intent) {
    && s.now >= i.expiresAt
    && (forall c :: Holds(s, c) ==> c.id != w.ident(i))
    && ClaimCount(s.log, w.ident(i)) == 0
  }

  ghost predicate SweepingOk(w: World, s: Sys, i: Intent, y: Sweeping) {
    match y
    case Clocked(at) => at <= s.now
    case ClaimsRead(at, _) => at <= s.now
    case Collected(dead, cleared) =>
      && (w.ident(i) in dead ==> Sweepable(i) && s.now >= WholeSeconds(i.expiresAt))
      && (w.ident(i) in cleared ==> Sweepable(i) && (SecondAligned(i.expiresAt) ==> Gone(w, s, i)))
  }

  ghost predicate SweepInv(w: World, s: Sys, i: Intent) {
    && BookOk(w, LedgerFold(s.log), i) && BookOk(w, s.ledger, i)
    && (forall tid :: tid in s.sweeps ==> SweepingOk(w, s, i, s.sweeps[tid]))
    && (w.ident(i) in s.swept ==> Sweepable(i) && (SecondAligned(i.expiresAt) ==> Gone(w, s, i)))
  }

  // ----- Gone for good -----

  lemma TimePasses(w: World, s: Sys, t: Step)
    requires Enabled(w, s, t)
    ensures s.now <= Do(w, s, t).now
  {
    if t.Sweep? { SweepFacts(s, t.tid, t.y); }
  }

  lemma GoneClaims(w: World, s: Sys, t: Step, i: Intent)
    requires Collisionless(w) && Enabled(w, s, t)
    requires HashesHold(w, s)
    requires forall c :: Holds(s, c) || Passes(s, c) ==> c.id != w.ident(i)
    ensures forall c :: Holds(Do(w, s, t), c) ==> c.id != w.ident(i)
  {
    forall c | Holds(Do(w, s, t), c) ensures c.id != w.ident(i) {
      ClaimsOfStep(w, s, t, c);
    }
  }

  lemma GoneCount(w: World, s: Sys, t: Step, id: Id)
    requires Enabled(w, s, t) && ClaimCount(s.log, id) == 0 && forall c :: Holds(s, c) ==> c.id != id
    ensures ClaimCount(Do(w, s, t).log, id) == 0
  {
    LogFacts(w, s, t);
    if Do(w, s, t).log != s.log {
      var e :| Do(w, s, t).log == s.log + [e] && Origin(s, t, e);
      LogAppend(s.log, e);
    }
  }

  lemma GoneKeeps(w: World, s: Sys, t: Step, i: Intent)
    requires Collisionless(w) && Inv(w, s) && Enabled(w, s, t) && Gone(w, s, i)
    ensures Gone(w, Do(w, s, t), i)
  {
    TimePasses(w, s, t);
    GoneCount(w, s, t, w.ident(i));
    if s.up { HashesBound(w, s); }
    forall c | Passes(s, c) ensures c.id != w.ident(i) {
      if c.id == w.ident(i) { PassingIsLive(w, s, c, i); }
    }
    GoneClaims(w, s, t, i);
  }

  lemma PassingIsLive(w: World, s: Sys, c: Claim, i: Intent)
    requires Collisionless(w) && Inv(w, s) && Passes(s, c) && c.id == w.ident(i)
    ensures s.now < i.expiresAt
  {
    assert Sound(w, s.nonces, c.id, s.mem[c.id]);
  }

  // Not claimed in memory means never claimed at all: no execution holds the request, none ever
  // started it, and the log has no claim on it.
  lemma Unclaimed(w: World, s: Sys, id: Id)
    requires Inv(w, s) && s.up && (id in s.mem ==> !s.mem[id].executed)
    ensures (forall c :: Holds(s, c) ==> c.id != id) && ClaimCount(s.log, id) == 0
  {
    var rep := Replay(s.log);
    if id in rep {
      assert Accounted(s.submits, s.mem, id, rep[id]);
      if id in s.mem {
        assert Tracks(s.mem[id], rep[id], s.now);
      } else {
        var n := rep[id].intent.nonce;
        assert SubmissionOk(w, s.nonces, rep, s.mem, n, s.submits[n]);
      }
    }
    assert !ClaimedIn(rep, id);
    forall c | Holds(s, c) ensures c.id != id {
      if c in s.started {
        assert forall k :: 0 <= k < |s.started| ==> ClaimedIn(rep, s.started[k].id);
      } else {
        var tid :| tid in s.execs && s.execs[tid].claim == c;
        assert ExecutionOk(w, rep, s.mem, s.started, s.execs[tid]);
      }
    }
  }

  // ----- The books, step by step -----

  // An event that would record a hold for `i` records it at its own expiry.
  predicate Lawful(w: World, e: Event, i: Intent) {
    e.Reserved? && e.id == w.ident(i) ==> Budget.Openable(i) && e.expiry == WholeSeconds(i.expiresAt)
  }

  lemma FoldAppend(w: World, log: seq<Event>, e: Event, i: Intent)
    requires BookOk(w, LedgerFold(log), i) && Lawful(w, e, i)
    ensures BookOk(w, LedgerFold(log + [e]), i)
  {
    assert (log + [e])[..|log|] == log;
  }

  lemma LawfulReserve(w: World, s: Sys, n: string, i: Intent)
    requires Collisionless(w) && Inv(w, s) && IntakeEnabled(s, n, IntakeStep.Reserve)
    ensures Lawful(w, Reserved(s.submits[n].id, WholeSeconds(s.submits[n].req.intent.expiresAt)), i)
  {
    assert SubmissionOk(w, s.nonces, Replay(s.log), s.mem, n, s.submits[n]);
  }

  lemma FoldStep(w: World, s: Sys, t: Step, i: Intent)
    requires Collisionless(w) && Inv(w, s) && Enabled(w, s, t) && BookOk(w, LedgerFold(s.log), i)
    ensures BookOk(w, LedgerFold(Do(w, s, t).log), i)
  {
    LogFacts(w, s, t);
    if Do(w, s, t).log != s.log {
      var e :| Do(w, s, t).log == s.log + [e] && Origin(s, t, e);
      if e.Reserved? { LawfulReserve(w, s, t.nonce, i); }
      FoldAppend(w, s.log, e, i);
    }
  }

  lemma WorldBooks(w: World, s: Sys, o: WorldStep, i: Intent)
    requires WorldEnabled(s, o) && BookOk(w, LedgerFold(s.log), i) && BookOk(w, s.ledger, i)
    ensures var s' := WorldDo(s, o);
            BookOk(w, s'.ledger, i) && s'.swept == s.swept && (s'.sweeps == s.sweeps || s'.sweeps == map[])
  {
  }

  lemma IntakeBooks(w: World, s: Sys, n: string, t: IntakeStep, i: Intent)
    requires Collisionless(w) && Inv(w, s) && IntakeEnabled(s, n, t) && BookOk(w, s.ledger, i)
    ensures var s' := IntakeDo(w, s, n, t);
            BookOk(w, s'.ledger, i) && s'.swept == s.swept && s'.sweeps == s.sweeps
  {
    if t.Reserve? { LawfulReserve(w, s, n, i); }
  }

  lemma ExecBooks(w: World, s: Sys, tid: nat, x: ExecStep)
    requires ExecEnabled(s, tid, x)
    ensures var s' := ExecDo(w, s, tid, x); s'.ledger == s.ledger && s'.swept == s.swept && s'.sweeps == s.sweeps
  {
  }

  lemma SweepingStays(w: World, s: Sys, s': Sys, i: Intent, y: Sweeping)
    requires SweepingOk(w, s, i, y) && s.now <= s'.now && (Gone(w, s, i) ==> Gone(w, s', i))
    ensures SweepingOk(w, s', i, y)
  {
  }

  // What one sweep step does to the books and to the one thread it moves.
  lemma SweepBooks(w: World, s: Sys, tid: nat, y: SweepStep, i: Intent)
    requires SweepEnabled(s, tid, y) && BookOk(w, s.ledger, i)
    ensures var s' := SweepDo(s, tid, y);
            && BookOk(w, s'.ledger, i)
            && (s'.swept == s.swept || (y.Release? && s'.swept == s.swept + {y.id}))
  {
  }

  lemma SweepThreads(s: Sys, tid: nat, y: SweepStep)
    requires SweepEnabled(s, tid, y)
    ensures var s' := SweepDo(s, tid, y);
            s'.sweeps == s.sweeps - {tid} || (tid in s'.sweeps && s'.sweeps == s.sweeps[tid := s'.sweeps[tid]])
  {
  }

  lemma CollectMoves(w: World, s: Sys, claims: set<Id>, at: Instant, i: Intent)
    requires BookOk(w, s.ledger, i) && at <= s.now
    ensures SweepingOk(w, s, i, Collected(Dead(WithClaims(s.ledger, claims), at), {}))
  {
  }

  lemma AskMoves(w: World, s: Sys, dead: set<Id>, cleared: set<Id>, i: Intent)
    requires Inv(w, s) && s.up && SweepingOk(w, s, i, Collected(dead, cleared))
    requires w.ident(i) in dead && !(w.ident(i) in s.mem && s.mem[w.ident(i)].executed)
    ensures SweepingOk(w, s, i, Collected(dead - {w.ident(i)}, cleared + {w.ident(i)}))
  {
    Unclaimed(w, s, w.ident(i));
  }

  lemma PlainMoves(w: World, s: Sys, tid: nat, y: SweepStep, i: Intent)
    requires SweepEnabled(s, tid, y) && tid in SweepDo(s, tid, y).sweeps && !y.Collect?
    requires y.Ask? ==> y.id != w.ident(i) || (y.id in s.mem && s.mem[y.id].executed)
    requires tid in s.sweeps ==> SweepingOk(w, s, i, s.sweeps[tid])
    ensures SweepingOk(w, s, i, SweepDo(s, tid, y).sweeps[tid])
  {
  }

  lemma SweepMoves(w: World, s: Sys, tid: nat, y: SweepStep, i: Intent)
    requires Inv(w, s) && SweepEnabled(s, tid, y) && BookOk(w, s.ledger, i)
    requires tid in s.sweeps ==> SweepingOk(w, s, i, s.sweeps[tid])
    requires tid in SweepDo(s, tid, y).sweeps
    ensures SweepingOk(w, s, i, SweepDo(s, tid, y).sweeps[tid])
  {
    if y.Collect? {
      CollectMoves(w, s, s.sweeps[tid].claims, s.sweeps[tid].at, i);
    } else if y.Ask? && y.id == w.ident(i) && !(y.id in s.mem && s.mem[y.id].executed) {
      AskMoves(w, s, s.sweeps[tid].dead, s.sweeps[tid].cleared, i);
    } else {
      PlainMoves(w, s, tid, y, i);
    }
  }

  lemma SweepStepThreads(w: World, s: Sys, tid: nat, y: SweepStep, i: Intent)
    requires Collisionless(w) && Inv(w, s) && SweepInv(w, s, i) && SweepEnabled(s, tid, y)
    ensures var s' := SweepDo(s, tid, y); forall x :: x in s'.sweeps ==> SweepingOk(w, s, i, s'.sweeps[x])
  {
    var s' := SweepDo(s, tid, y);
    SweepThreads(s, tid, y);
    forall x | x in s'.sweeps ensures SweepingOk(w, s, i, s'.sweeps[x]) {
      if x == tid {
        SweepMoves(w, s, tid, y, i);
      }
    }
  }

  lemma ThreadsStay(w: World, s: Sys, s': Sys, i: Intent)
    requires forall x :: x in s'.sweeps ==> SweepingOk(w, s, i, s'.sweeps[x])
    requires s.now <= s'.now && (Gone(w, s, i) ==> Gone(w, s', i))
    ensures forall x :: x in s'.sweeps ==> SweepingOk(w, s', i, s'.sweeps[x])
  {
    forall x | x in s'.sweeps ensures SweepingOk(w, s', i, s'.sweeps[x]) {
      SweepingStays(w, s, s', i, s'.sweeps[x]);
    }
  }

  lemma SweptStep(w: World, s: Sys, tid: nat, y: SweepStep, i: Intent)
    requires SweepInv(w, s, i) && SweepEnabled(s, tid, y)
    ensures w.ident(i) in SweepDo(s, tid, y).swept ==> Sweepable(i) && (SecondAligned(i.expiresAt) ==> Gone(w, s, i))
  {
    SweepBooks(w, s, tid, y, i);
    if y.Release? {
      assert SweepingOk(w, s, i, s.sweeps[tid]);
    }
  }

  lemma SweepInvKeeps(w: World, s: Sys, t: Step, i: Intent)
    requires Collisionless(w) && Inv(w, s) && SweepInv(w, s, i) && Enabled(w, s, t)
    ensures SweepInv(w, Do(w, s, t), i)
  {
    FoldStep(w, s, t, i);
    TimePasses(w, s, t);
    if Gone(w, s, i) { GoneKeeps(w, s, t, i); }
    match t {
      case Outside(o) => WorldBooks(w, s, o, i);
      case Intake(n, j) => IntakeBooks(w, s, n, j, i);
      case Sweep(tid, y) =>
        SweepBooks(w, s, tid, y, i);
        SweepStepThreads(w, s, tid, y, i);
        SweptStep(w, s, tid, y, i);
      case Exec(tid, x) => ExecBooks(w, s, tid, x);
      case Decide(_, _, _, _) =>
    }
    ThreadsStay(w, s, Do(w, s, t), i);
  }

  lemma {:induction false} RunSweepInv(w: World, states: seq<Sys>, steps: seq<Step>, i: Intent)
    requires Collisionless(w) && Run(w, states, steps)
    ensures SweepInv(w, states[|steps|], i)
  {
    if steps != [] {
      var n := |steps| - 1;
      RunInv(w, states, steps);
      RunSweepInv(w, states[..n + 1], steps[..n], i);
      assert states[..n + 1][n] == states[n];
      SweepInvKeeps(w, states[n], steps[n], i);
    }
  }

  // ----- The main result -----

  ghost predicate SweptAndStarted(w: World, i: Intent, states: seq<Sys>, steps: seq<Step>) {
    && Run(w, states, steps)
    && w.ident(i) in states[|steps|].swept
    && Started(states[|steps|].started, w.ident(i))
  }

  // A hold whose intent expires on a whole second is released as expired only if its executor
  // neither ran before nor runs after, in any interleaving; an intent the ledger would refuse, or
  // whose stored expiry is none, is never released at all.
  lemma SweeperSafe(w: World, states: seq<Sys>, steps: seq<Step>, i: Intent)
    requires Collisionless(w) && Run(w, states, steps)
    requires SecondAligned(i.expiresAt) || !Sweepable(i)
    ensures !SweptAndStarted(w, i, states, steps)
  {
    RunSweepInv(w, states, steps, i);
    var s := states[|steps|];
    assert forall k :: 0 <= k < |s.started| ==> Holds(s, s.started[k]);
  }

  // ----- The window the truncated expiry leaves open -----

  // The sweep of one hold, read against the clock and the durable claims; then its release.
  function LookSteps(): seq<Step> {
    [] + [Sweep(0, Clock)] + [Sweep(0, ReadClaims)] + [Sweep(0, Collect)]
  }

  function ReleaseSteps(id: Id): seq<Step> {
    [] + [Sweep(0, Ask(id))] + [Sweep(0, Release(id, true))]
  }

  function PaySteps(id: Id, i: Intent): seq<Step> {
    [] + [Exec(0, Gate(id, i, false))] + [Exec(0, LogClaim)] + [Exec(0, Start)]
  }

  function Looking(s: Sys, y: Sweeping): Sys {
    s.(sweeps := map[0 := y])
  }

  lemma Look(w: World, s: Sys, id: Id)
    requires s.up && s.sweeps == map[] && ClaimsIn(s.log) == {}
    requires s.ledger == map[id := Entry(true, Some(s.now), false, false)]
    ensures After(Next(w), s, LookSteps()) == Some(Looking(s, Collected({id}, {})))
  {
    var next := Next(w);
    var a, b, c := Looking(s, Clocked(s.now)), Looking(s, ClaimsRead(s.now, {})), Looking(s, Collected({id}, {}));
    assert next(s, Sweep(0, Clock)) == Some(a);
    ThenOnce(next, s, [], s, Sweep(0, Clock), a);
    assert a.sweeps[0 := ClaimsRead(s.now, {})] == b.sweeps;
    assert next(a, Sweep(0, ReadClaims)) == Some(b);
    ThenOnce(next, s, [] + [Sweep(0, Clock)], a, Sweep(0, ReadClaims), b);
    assert WithClaims(s.ledger, {}) == s.ledger;
    assert Dead(s.ledger, s.now) == {id};
    assert b.sweeps[0 := Collected({id}, {})] == c.sweeps;
    assert next(b, Sweep(0, Collect)) == Some(c);
    ThenOnce(next, s, [] + [Sweep(0, Clock)] + [Sweep(0, ReadClaims)], b, Sweep(0, Collect), c);
  }

  function Given(s: Sys, id: Id): Sys
    requires id in s.ledger
  {
    s.(log := s.log + [HoldClosed(id)], ledger := map[id := s.ledger[id].(closed := true)],
       sweeps := map[0 := Collected({}, {})], swept := {id})
  }

  lemma Give(w: World, s: Sys, id: Id)
    requires s.up && s.sweeps == map[0 := Collected({id}, {})] && id in s.mem && !s.mem[id].executed && s.swept == {}
    requires s.ledger == map[id := Entry(true, Some(s.now), false, false)]
    ensures After(Next(w), s, ReleaseSteps(id)) == Some(Given(s, id))
  {
    var next, asked := Next(w), Looking(s, Collected({}, {id}));
    assert {id} - {id} == {} && {} + {id} == {id};
    assert s.sweeps[0 := Collected({}, {id})] == asked.sweeps;
    assert next(s, Sweep(0, Ask(id))) == Some(asked);
    ThenOnce(next, s, [], s, Sweep(0, Ask(id)), asked);
    assert asked.sweeps[0 := Collected({}, {})] == Given(s, id).sweeps;
    assert asked.ledger[id := asked.ledger[id].(closed := true)] == Given(s, id).ledger;
    assert next(asked, Sweep(0, Release(id, true))) == Some(Given(s, id));
    ThenOnce(next, s, [] + [Sweep(0, Ask(id))], asked, Sweep(0, Release(id, true)), Given(s, id));
  }

  function Paid(s: Sys, id: Id, c: Claim): Sys
    requires id in s.mem
  {
    s.(mem := s.mem[id := s.mem[id].(executed := true)], log := s.log + [Executing(id)], execs := map[], started := [c])
  }

  lemma Pay(w: World, s: Sys, i: Intent, c: Claim)
    requires s.up && s.execs == map[] && s.frozen == {} && s.version == i.policyVersion && s.now < i.expiresAt
    requires w.ident(i) in s.mem && s.mem[w.ident(i)] == OpenRequest(w.hash(i), i, true) && s.started == []
    requires c == ClaimOf(s, w.ident(i), i)
    ensures After(Next(w), s, PaySteps(w.ident(i), i)) == Some(Paid(s, w.ident(i), c))
  {
    var next, id := Next(w), w.ident(i);
    var gated := s.(mem := s.mem[id := s.mem[id].(executed := true)], execs := map[0 := Execution(c, false)]);
    var logged := gated.(log := s.log + [Executing(id)], execs := map[0 := Execution(c, true)]);
    assert next(s, Exec(0, Gate(id, i, false))) == Some(gated);
    ThenOnce(next, s, [], s, Exec(0, Gate(id, i, false)), gated);
    assert gated.execs[0 := Execution(c, true)] == logged.execs;
    assert next(gated, Exec(0, LogClaim)) == Some(logged);
    ThenOnce(next, s, [] + [Exec(0, Gate(id, i, false))], gated, Exec(0, LogClaim), logged);
    assert logged.execs - {0} == map[] && [] + [c] == [c];
    assert next(logged, Exec(0, Start)) == Some(Paid(s, id, c));
    ThenOnce(next, s, [] + [Exec(0, Gate(id, i, false))] + [Exec(0, LogClaim)], logged, Exec(0, Start), Paid(s, id, c));
  }

  // A never-used installation whose clock stands at the second the intent's expiry falls in.
  function Fresh(i: Intent): Sys {
    Sys(WholeSeconds(i.expiresAt), i.policyVersion, {}, false, [], {}, map[], map[], map[], map[], map[], [], {})
  }

  function OpenedState(w: World, i: Intent): Sys {
    Fresh(i).(
      up := true, nonces := {i.nonce}, log := IntakeTrail(w, i), mem := map[w.ident(i) := OpenRequest(w.hash(i), i, true)],
      ledger := map[w.ident(i) := HeldEntry(i)])
  }

  function OpenSteps(i: Intent): seq<Step> {
    [] + [Outside(Boot)] + IntakeSteps(i) + [Intake(i.nonce, Publish)]
  }

  lemma Open(w: World, i: Intent)
    requires Budget.Openable(i)
    ensures After(Next(w), Fresh(i), OpenSteps(i)) == Some(OpenedState(w, i))
  {
    var next, s := Next(w), Fresh(i);
    var boot := s.(up := true);
    assert next(s, Outside(Boot)) == Some(boot);
    ThenOnce(next, s, [], s, Outside(Boot), boot);
    LoggedIntake(w, boot, i);
    Then(next, s, [] + [Outside(Boot)], boot, IntakeSteps(i));
    var logged := AfterIntake(w, boot, i);
    assert logged.submits - {i.nonce} == map[] && {} + {i.nonce} == {i.nonce};
    assert logged.mem[w.ident(i) := LoggedAuto(w, i).req] == OpenedState(w, i).mem;
    assert next(logged, Intake(i.nonce, Publish)) == Some(OpenedState(w, i));
    ThenOnce(next, s, [] + [Outside(Boot)] + IntakeSteps(i), logged, Intake(i.nonce, Publish), OpenedState(w, i));
  }

  lemma SweptThenPaid(w: World, i: Intent)
    requires Sweepable(i) && !SecondAligned(i.expiresAt)
    ensures exists states: seq<Sys>, steps :: SweptAndStarted(w, i, states, steps)
  {
    var next, s, id := Next(w), Fresh(i), w.ident(i);
    var a, b, c, d := OpenSteps(i), LookSteps(), ReleaseSteps(id), PaySteps(id, i);
    var ready := OpenedState(w, i);
    var looked := Looking(ready, Collected({id}, {}));
    var given := Given(looked, id);
    var claim := ClaimOf(given, id, i);
    Open(w, i);
    assert ClaimsIn(ready.log) == {};
    Look(w, ready, id);
    Then(next, s, a, ready, b);
    Give(w, looked, id);
    Then(next, s, a + b, looked, c);
    Pay(w, given, i, claim);
    Then(next, s, a + b + c, given, d);
    var end := Paid(given, id, claim);
    var states := RunTo(w, s, a + b + c + d, end);
    assert end.started[0].id == id && id in end.swept;
    assert SweptAndStarted(w, i, states, a + b + c + d);
  }

  // Exactly the intents the ledger holds whose expiry is not on a whole second can be released as
  // expired and still be paid: the ledger keeps an expiry at second precision, the lifecycle at nanoseconds.
  lemma SweeperSafeExactly(w: World, i: Intent)
    requires Collisionless(w)
    ensures (forall states: seq<Sys>, steps :: !SweptAndStarted(w, i, states, steps))
            <==> (SecondAligned(i.expiresAt) || !Sweepable(i))
  {
    if SecondAligned(i.expiresAt) || !Sweepable(i) {
      forall states: seq<Sys>, steps ensures !SweptAndStarted(w, i, states, steps) {
        if Run(w, states, steps) {
          SweeperSafe(w, states, steps, i);
        }
      }
    } else {
      SweptThenPaid(w, i);
    }
  }
}
