// Concurrent intake over one ledger: every Submit takes its org's gate, then its job's, reads the
// spend, evaluates, and holds; holds are claimed, committed and released at any time; the clock
// ticks, and the daemon restarts on its log (daemon/internal/approval/lifecycle.go,
// daemon/internal/budget/budget.go, daemon/cmd/snapfall/main.go).
module BudgetRuns {
  import opened Wrappers
  import opened Intents
  import opened Policy
  import opened Budget

  // Where a Submit stands between its nonce claim and its return.
  datatype Stage = Entered | OrgTaken | BothTaken | Passed | Finished | JobFreed

  datatype Thread = Thread(id: Id, intent: Intent, stage: Stage)

  datatype Sys = Sys(
    now: Instant,
    ledger: State,
    log: seq<Event>,
    orgGate: map<string, nat>,
    jobGate: map<string, nat>,
    threads: map<nat, Thread>)

  datatype Step =
    | Enter(tid: nat, id: Id, intent: Intent)
    | TakeOrg(tid: nat)
    | TakeJob(tid: nat)
    | Judge(tid: nat)
    | PlaceHold(tid: nat, appended: bool)
    | Fail(tid: nat)
    | FreeJob(tid: nat)
    | FreeOrg(tid: nat)
    | CommitHold(id: Id, paid: int, appended: bool)
    | ReleaseHold(id: Id, appended: bool)
    | Claim(id: Id)
    | Refresh
    | Tick(nanos: nat)
    | Restart

  predicate At(s: Sys, tid: nat, stage: Stage) {
    tid in s.threads && s.threads[tid].stage == stage
  }

  // A payment is no larger than the hold it settles.
  predicate Enabled(s: Sys, t: Step) {
    match t
    case Enter(tid, _, _) => tid !in s.threads
    case TakeOrg(tid) => At(s, tid, Entered) && s.threads[tid].intent.orgId !in s.orgGate
    case TakeJob(tid) => At(s, tid, OrgTaken) && s.threads[tid].intent.jobId !in s.jobGate
    case Judge(tid) => At(s, tid, BothTaken)
    case PlaceHold(tid, _) => At(s, tid, Passed)
    case Fail(tid) => At(s, tid, BothTaken) || At(s, tid, Passed)
    case FreeJob(tid) => At(s, tid, Finished)
    case FreeOrg(tid) => At(s, tid, JobFreed)
    case CommitHold(id, paid, _) => paid <= Lookup(s.ledger.book, id).hold.micros
    case _ => true
  }

  function Move(s: Sys, tid: nat, stage: Stage): map<nat, Thread>
    requires tid in s.threads
  {
    s.threads[tid := s.threads[tid].(stage := stage)]
  }

  function Effect(s: Sys, r: (Verdict, State, seq<Event>)): Sys {
    s.(ledger := r.1, log := s.log + r.2)
  }

  function LoggedClaims(log: seq<Event>): set<Id> {
    set e | e in log && e.Executing? && e.id != "" :: e.id
  }

  ghost function Do(cfg: Config, s: Sys, t: Step): Sys
    requires Enabled(s, t)
  {
    match t
    case Enter(tid, id, intent) => s.(threads := s.threads[tid := Thread(id, intent, Entered)])
    case TakeOrg(tid) =>
      s.(orgGate := s.orgGate[s.threads[tid].intent.orgId := tid], threads := Move(s, tid, OrgTaken))
    case TakeJob(tid) =>
      s.(jobGate := s.jobGate[s.threads[tid].intent.jobId := tid], threads := Move(s, tid, BothTaken))
    case Judge(tid) =>
      var i := s.threads[tid].intent;
      var denied := Evaluate(cfg, SpendOf(s.ledger, i.jobId, s.now), i).outcome == Deny;
      s.(threads := Move(s, tid, if denied then Finished else Passed))
    case PlaceHold(tid, appended) =>
      Effect(s, ReserveEffect(s.ledger, s.threads[tid].id, HoldFor(s.threads[tid].intent), s.now, appended))
      .(threads := Move(s, tid, Finished))
    case Fail(tid) => s.(threads := Move(s, tid, Finished))
    case FreeJob(tid) =>
      s.(jobGate := s.jobGate - {s.threads[tid].intent.jobId}, threads := Move(s, tid, JobFreed))
    case FreeOrg(tid) =>
      s.(orgGate := s.orgGate - {s.threads[tid].intent.orgId}, threads := s.threads - {tid})
    case CommitHold(id, paid, appended) => Effect(s, CommitEffect(s.ledger, id, paid, appended))
    case ReleaseHold(id, appended) => Effect(s, ReleaseEffect(s.ledger, id, appended))
    case Claim(id) => s.(log := s.log + [Executing(id)])
    case Refresh => s.(ledger := s.ledger.(book := WithClaims(s.ledger.book, LoggedClaims(s.log))))
    case Tick(nanos) => s.(now := s.now + nanos)
    case Restart => s.(ledger := Fold(s.log), orgGate := map[], jobGate := map[], threads := map[])
  }

  predicate Initial(s: Sys) {
    s.ledger == State(map[], map[]) && s.log == [] && s.orgGate == map[] && s.jobGate == map[] && s.threads == map[]
  }

  ghost predicate Run(cfg: Config, states: seq<Sys>, steps: seq<Step>) {
    && |states| == |steps| + 1
    && Initial(states[0])
    && forall k :: 0 <= k < |steps| ==> Enabled(states[k], steps[k]) && states[k + 1] == Do(cfg, states[k], steps[k])
  }

  // Every intent of the run names its job's own org.
  predicate Owned(owner: map<string, string>, i: Intent) {
    i.jobId in owner && owner[i.jobId] == i.orgId
  }

  predicate Lawful(owner: map<string, string>, steps: seq<Step>) {
    forall k :: 0 <= k < |steps| && steps[k].Enter? ==> Owned(owner, steps[k].intent)
  }

  // ----- The gates -----

  predicate HoldsOrg(stage: Stage) {
    !stage.Entered?
  }

  predicate HoldsJob(stage: Stage) {
    stage.BothTaken? || stage.Passed? || stage.Finished?
  }

  // A gate is held by exactly the thread inside it.
  predicate OrgGates(threads: map<nat, Thread>, gate: map<string, nat>) {
    && (forall tid :: tid in threads && HoldsOrg(threads[tid].stage) ==>
          threads[tid].intent.orgId in gate && gate[threads[tid].intent.orgId] == tid)
    && (forall o :: o in gate ==>
          gate[o] in threads && HoldsOrg(threads[gate[o]].stage) && threads[gate[o]].intent.orgId == o)
  }

  predicate JobGates(threads: map<nat, Thread>, gate: map<string, nat>) {
    && (forall tid :: tid in threads && HoldsJob(threads[tid].stage) ==>
          threads[tid].intent.jobId in gate && gate[threads[tid].intent.jobId] == tid)
    && (forall j :: j in gate ==>
          gate[j] in threads && HoldsJob(threads[gate[j]].stage) && threads[gate[j]].intent.jobId == j)
  }

  predicate GateInv(s: Sys) {
    OrgGates(s.threads, s.orgGate) && JobGates(s.threads, s.jobGate)
  }

  // Moving a thread without crossing a gate.
  lemma StayingKeeps(s: Sys, tid: nat, stage: Stage)
    requires GateInv(s) && tid in s.threads
    ensures HoldsOrg(stage) == HoldsOrg(s.threads[tid].stage) ==> OrgGates(Move(s, tid, stage), s.orgGate)
    ensures HoldsJob(stage) == HoldsJob(s.threads[tid].stage) ==> JobGates(Move(s, tid, stage), s.jobGate)
  {
    if HoldsOrg(stage) == HoldsOrg(s.threads[tid].stage) { StayingKeepsOrg(s, tid, stage); }
    if HoldsJob(stage) == HoldsJob(s.threads[tid].stage) { StayingKeepsJob(s, tid, stage); }
  }

  lemma StayingKeepsOrg(s: Sys, tid: nat, stage: Stage)
    requires OrgGates(s.threads, s.orgGate) && tid in s.threads && HoldsOrg(stage) == HoldsOrg(s.threads[tid].stage)
    ensures OrgGates(Move(s, tid, stage), s.orgGate)
  {
  }

  lemma StayingKeepsJob(s: Sys, tid: nat, stage: Stage)
    requires JobGates(s.threads, s.jobGate) && tid in s.threads && HoldsJob(stage) == HoldsJob(s.threads[tid].stage)
    ensures JobGates(Move(s, tid, stage), s.jobGate)
  {
  }

  lemma TakeOrgKeeps(cfg: Config, s: Sys, tid: nat)
    requires GateInv(s) && Enabled(s, TakeOrg(tid))
    ensures GateInv(Do(cfg, s, TakeOrg(tid)))
  {
    StayingKeeps(s, tid, OrgTaken);
  }

  lemma TakeJobKeeps(cfg: Config, s: Sys, tid: nat)
    requires GateInv(s) && Enabled(s, TakeJob(tid))
    ensures GateInv(Do(cfg, s, TakeJob(tid)))
  {
    StayingKeeps(s, tid, BothTaken);
  }

  lemma FreeJobKeeps(cfg: Config, s: Sys, tid: nat)
    requires GateInv(s) && Enabled(s, FreeJob(tid))
    ensures GateInv(Do(cfg, s, FreeJob(tid)))
  {
    StayingKeeps(s, tid, JobFreed);
  }

  lemma FreeOrgKeeps(cfg: Config, s: Sys, tid: nat)
    requires GateInv(s) && Enabled(s, FreeOrg(tid))
    ensures GateInv(Do(cfg, s, FreeOrg(tid)))
  {
  }

  // Evaluating, holding and failing move one thread and touch no gate.
  lemma InsideFacts(cfg: Config, s: Sys, t: Step)
    requires Enabled(s, t) && (t.Judge? || t.PlaceHold? || t.Fail?)
    ensures var s' := Do(cfg, s, t);
            && s'.orgGate == s.orgGate && s'.jobGate == s.jobGate && HoldsJob(s.threads[t.tid].stage)
            && (s'.threads == Move(s, t.tid, Finished) || s'.threads == Move(s, t.tid, Passed))
  {
  }

  lemma InsideKeeps(cfg: Config, s: Sys, t: Step)
    requires GateInv(s) && Enabled(s, t) && (t.Judge? || t.PlaceHold? || t.Fail?)
    ensures GateInv(Do(cfg, s, t))
  {
    InsideFacts(cfg, s, t);
    StayingKeeps(s, t.tid, Finished);
    StayingKeeps(s, t.tid, Passed);
  }

  // Closing, claiming, rereading and ticking touch no thread and no gate; entering and restarting
  // take and free none.
  lemma OutsideKeeps(cfg: Config, s: Sys, t: Step)
    requires GateInv(s) && Enabled(s, t)
    requires t.CommitHold? || t.ReleaseHold? || t.Claim? || t.Refresh? || t.Tick? || t.Restart?
    ensures GateInv(Do(cfg, s, t))
  {
  }

  lemma EnterKeeps(cfg: Config, s: Sys, tid: nat, id: Id, intent: Intent)
    requires GateInv(s) && Enabled(s, Enter(tid, id, intent))
    ensures GateInv(Do(cfg, s, Enter(tid, id, intent)))
  {
  }

  lemma GatesKeep(cfg: Config, s: Sys, t: Step)
    requires GateInv(s) && Enabled(s, t)
    ensures GateInv(Do(cfg, s, t))
  {
    if t.Judge? || t.PlaceHold? || t.Fail? {
      InsideKeeps(cfg, s, t);
    } else {
      match t {
        case TakeOrg(tid) => TakeOrgKeeps(cfg, s, tid);
        case TakeJob(tid) => TakeJobKeeps(cfg, s, tid);
        case FreeJob(tid) => FreeJobKeeps(cfg, s, tid);
        case FreeOrg(tid) => FreeOrgKeeps(cfg, s, tid);
        case Enter(tid, id, intent) => EnterKeeps(cfg, s, tid, id, intent);
        case _ => OutsideKeeps(cfg, s, t);
      }
    }
  }

  // A thread that can take its next step at once.
  predicate Runnable(s: Sys, tid: nat) {
    tid in s.threads &&
    match s.threads[tid].stage
    case Entered => s.threads[tid].intent.orgId !in s.orgGate
    case OrgTaken => s.threads[tid].intent.jobId !in s.jobGate
    case _ => true
  }

  // Whom a thread that cannot is waiting for.
  function Blocker(s: Sys, tid: nat): nat
    requires tid in s.threads && !Runnable(s, tid)
  {
    if s.threads[tid].stage.Entered? then s.orgGate[s.threads[tid].intent.orgId]
    else s.jobGate[s.threads[tid].intent.jobId]
  }

  // The org-then-job order admits no deadlock: a chain of waiting threads has at most two links
  // and ends at one that can move, and a thread inside both gates never waits.
  lemma NoDeadlock(s: Sys, tid: nat)
    requires GateInv(s) && tid in s.threads && !Runnable(s, tid)
    ensures Blocker(s, tid) in s.threads
    ensures Runnable(s, Blocker(s, tid)) || Runnable(s, Blocker(s, Blocker(s, tid)))
    ensures s.threads[tid].stage.OrgTaken? ==> Runnable(s, Blocker(s, tid))
  {
  }

  lemma RunnableMoves(s: Sys, tid: nat)
    requires Runnable(s, tid)
    ensures Enabled(s, TakeOrg(tid)) || Enabled(s, TakeJob(tid)) || Enabled(s, Judge(tid)) || Enabled(s, PlaceHold(tid, true))
            || Enabled(s, FreeJob(tid)) || Enabled(s, FreeOrg(tid))
  {
  }

  // ----- Memory and the log -----

  lemma {:induction false} LoggedClaimsAre(log: seq<Event>, id: Id)
    ensures id in LoggedClaims(log) <==> id != "" && ClaimLogged(log, id)
  {
    if log != [] {
      LoggedClaimsAre(log[..|log| - 1], id);
      assert log == log[..|log| - 1] + [log[|log| - 1]];
    }
  }

  lemma DurableKept(cfg: Config, s: Sys, t: Step)
    requires Durable(s.ledger, s.log) && Enabled(s, t)
    ensures var s' := Do(cfg, s, t); Durable(s'.ledger, s'.log)
  {
    match t {
      case PlaceHold(tid, appended) =>
        ReserveDurable(s.ledger, s.log, s.threads[tid].id, HoldFor(s.threads[tid].intent), s.now, appended);
      case CommitHold(id, paid, appended) => CommitDurable(s.ledger, s.log, id, paid, appended);
      case ReleaseHold(id, appended) => ReleaseDurable(s.ledger, s.log, id, appended);
      case Claim(id) => ClaimDurable(s.ledger, s.log, id);
      case Refresh =>
        forall id | id in LoggedClaims(s.log) ensures id != "" && ClaimLogged(s.log, id) {
          LoggedClaimsAre(s.log, id);
        }
        RefreshDurable(s.ledger, s.log, LoggedClaims(s.log));
      case Restart => FoldDurable(s.log);
      case _ =>
    }
  }

  // ----- The two figures -----

  function Limit(n: int): nat {
    if n > 0 then n else 0
  }

  // Open holds plus committed spend: of one job, or of one org over the holds reserved in the
  // current UTC day.
  datatype Figure = PerJob | PerDay

  function SliceOf(f: Figure, key: string, now: Instant): Slice {
    match f
    case PerJob => OfJob(key)
    case PerDay => OfOrg(key, WindowStart(now))
  }

  function KeyOf(f: Figure, i: Intent): string {
    match f
    case PerJob => i.jobId
    case PerDay => i.orgId
  }

  function Cap(cfg: Config, f: Figure): int {
    match f
    case PerJob => cfg.jobBudget
    case PerDay => cfg.dailyCap
  }

  ghost function Taken(f: Figure, s: Sys, key: string): nat {
    Total(s.ledger.book, SliceOf(f, key, s.now))
  }

  ghost function JobTotal(s: Sys, job: string): nat {
    Taken(PerJob, s, job)
  }

  ghost function DayTotal(s: Sys, org: string): nat {
    Taken(PerDay, s, org)
  }

  ghost predicate Fits(cfg: Config, f: Figure, s: Sys, i: Intent) {
    0 < i.amountMicros && Taken(f, s, KeyOf(f, i)) + i.amountMicros <= Cap(cfg, f)
  }

  // The figure is within its limit, and with it every thread that passed the rules still fits.
  ghost predicate Kept(cfg: Config, f: Figure, s: Sys) {
    && (forall key :: Taken(f, s, key) <= Limit(Cap(cfg, f)))
    && (forall tid :: At(s, tid, Passed) ==> Fits(cfg, f, s, s.threads[tid].intent))
  }

  // The configuration is a policy file's: its figures fit an int64.
  predicate Representable(cfg: Config) {
    cfg.jobBudget <= MAX_INT64 && cfg.dailyCap <= MAX_INT64
  }

  // The ledger charges the job's spend to the intent's own org, or to every org.
  predicate ChargesOwn(s: State, i: Intent) {
    i.jobId in s.jobOrg ==> s.jobOrg[i.jobId] == i.orgId
  }

  // ----- How a step moves a figure -----

  lemma HoldGrows(s: State, id: Id, h: Budget.Hold, now: Instant, appended: bool, slice: Slice)
    ensures var s' := ReserveEffect(s, id, h, now, appended).1;
            Total(s'.book, slice) <= Total(s.book, slice)
              + if Covers(slice, h.(reservedAt := Millis(now))) then Limit(h.micros) else 0
  {
    var was := Lookup(s.book, id);
    var held := h.(reservedAt := Millis(now), expiresAt := WholeSeconds(h.expiresAt));
    TotalUpdate(s.book, slice, id, was.(reserved := true, hold := held));
  }

  lemma CommitShrinks(s: State, id: Id, paid: int, appended: bool, slice: Slice)
    requires paid <= Lookup(s.book, id).hold.micros
    ensures Total(CommitEffect(s, id, paid, appended).1.book, slice) <= Total(s.book, slice)
  {
    TotalUpdate(s.book, slice, id, Lookup(s.book, id).(closing := Committed(paid)));
  }

  lemma ReleaseShrinks(s: State, id: Id, appended: bool, slice: Slice)
    ensures Total(ReleaseEffect(s, id, appended).1.book, slice) <= Total(s.book, slice)
  {
    TotalUpdate(s.book, slice, id, Lookup(s.book, id).(closing := Released));
  }

  // Reading claims moves no figure.
  lemma ClaimsMoveNothing(book: Book, claims: set<Id>, slice: Slice)
    ensures Total(WithClaims(book, claims), slice) == Total(book, slice)
  {
    ClaimsLookup(book, claims);
    TotalAgrees(WithClaims(book, claims), book, slice);
  }

  // A later window counts no more.
  lemma WindowNarrows(book: Book, org: string, now: Instant, later: Instant)
    requires now <= later
    ensures Total(book, OfOrg(org, WindowStart(later))) <= Total(book, OfOrg(org, WindowStart(now)))
  {
    WindowMonotone(now, later);
    TotalWithin(book, OfOrg(org, WindowStart(later)), OfOrg(org, WindowStart(now)));
  }

  lemma WindowMonotone(now: Instant, later: Instant)
    requires now <= later
    ensures WindowStart(now) <= WindowStart(later) && WindowStart(now) <= Millis(now)
  {
    var a, b := Millis(now), Millis(later);
    assert a <= b;
    assert a - a % DAY_MILLIS == DAY_MILLIS * (a / DAY_MILLIS);
    assert b - b % DAY_MILLIS == DAY_MILLIS * (b / DAY_MILLIS);
    assert a / DAY_MILLIS <= b / DAY_MILLIS;
  }

  // A step that only shrinks the figure and moves no thread into Passed keeps it.
  lemma ShrinkingKeeps(cfg: Config, f: Figure, s: Sys, s': Sys)
    requires Kept(cfg, f, s)
    requires forall key :: Taken(f, s', key) <= Taken(f, s, key)
    requires forall tid :: At(s', tid, Passed) ==> At(s, tid, Passed) && s'.threads[tid].intent == s.threads[tid].intent
    ensures Kept(cfg, f, s')
  {
    forall tid | At(s', tid, Passed) ensures Fits(cfg, f, s', s'.threads[tid].intent) {
      assert Fits(cfg, f, s, s.threads[tid].intent);
    }
    forall key ensures Taken(f, s', key) <= Limit(Cap(cfg, f)) {
      assert Taken(f, s', key) <= Taken(f, s, key) <= Limit(Cap(cfg, f));
    }
  }

  // What a verdict other than deny means for the true figures, saturation included: the job's for
  // every intent, the day's where the ledger charges the intent's own org.
  lemma PassedFits(cfg: Config, f: Figure, s: Sys, i: Intent)
    requires Representable(cfg) && (f.PerDay? ==> ChargesOwn(s.ledger, i))
    requires Evaluate(cfg, SpendOf(s.ledger, i.jobId, s.now), i).outcome != Deny
    ensures Fits(cfg, f, s, i)
  {
    var since := WindowStart(s.now);
    var daily := DailySlice(s.ledger, i.jobId, s.now);
    VerdictExact(cfg, SpendOf(s.ledger, i.jobId, s.now), i);
    if f.PerDay? {
      TotalWithin(s.ledger.book, OfOrg(i.orgId, since), daily);
    }
  }

  lemma JudgeKeeps(cfg: Config, f: Figure, s: Sys, tid: nat)
    requires Representable(cfg) && Kept(cfg, f, s) && Enabled(s, Judge(tid))
    requires f.PerDay? ==> ChargesOwn(s.ledger, s.threads[tid].intent)
    ensures Kept(cfg, f, Do(cfg, s, Judge(tid)))
  {
    var i, s' := s.threads[tid].intent, Do(cfg, s, Judge(tid));
    assert forall key :: Taken(f, s', key) == Taken(f, s, key);
    if s'.threads[tid].stage.Passed? {
      PassedFits(cfg, f, s, i);
    }
    forall x | At(s', x, Passed) ensures Fits(cfg, f, s', s'.threads[x].intent) {
      if x != tid { assert Fits(cfg, f, s, s.threads[x].intent); }
    }
  }

  // Placing a hold grows only its own key's figure, whose gate no other thread is inside.
  lemma HoldKeeps(cfg: Config, f: Figure, s: Sys, tid: nat, appended: bool)
    requires Kept(cfg, f, s) && GateInv(s) && Enabled(s, PlaceHold(tid, appended))
    ensures Kept(cfg, f, Do(cfg, s, PlaceHold(tid, appended)))
  {
    var i, s' := s.threads[tid].intent, Do(cfg, s, PlaceHold(tid, appended));
    assert Fits(cfg, f, s, i);
    forall key ensures Taken(f, s', key) <= Taken(f, s, key) + if key == KeyOf(f, i) then i.amountMicros else 0 {
      HoldGrows(s.ledger, s.threads[tid].id, HoldFor(i), s.now, appended, SliceOf(f, key, s.now));
    }
    forall x | At(s', x, Passed) ensures Fits(cfg, f, s', s'.threads[x].intent) {
      assert x != tid && Fits(cfg, f, s, s.threads[x].intent);
      assert s.threads[x].intent.jobId != i.jobId && s.threads[x].intent.orgId != i.orgId;
    }
    forall key ensures Taken(f, s', key) <= Limit(Cap(cfg, f)) {
      assert Taken(f, s, key) <= Limit(Cap(cfg, f));
    }
  }

  lemma ClosingKeeps(cfg: Config, f: Figure, s: Sys, t: Step)
    requires Kept(cfg, f, s) && Enabled(s, t) && (t.CommitHold? || t.ReleaseHold?)
    ensures Kept(cfg, f, Do(cfg, s, t))
  {
    forall key ensures Taken(f, Do(cfg, s, t), key) <= Taken(f, s, key) {
      if t.CommitHold? {
        CommitShrinks(s.ledger, t.id, t.paid, t.appended, SliceOf(f, key, s.now));
      } else {
        ReleaseShrinks(s.ledger, t.id, t.appended, SliceOf(f, key, s.now));
      }
    }
    ShrinkingKeeps(cfg, f, s, Do(cfg, s, t));
  }

  lemma TickKeeps(cfg: Config, f: Figure, s: Sys, nanos: nat)
    requires Kept(cfg, f, s)
    ensures Kept(cfg, f, s.(now := s.now + nanos))
  {
    var s' := s.(now := s.now + nanos);
    forall key ensures Taken(f, s', key) <= Taken(f, s, key) {
      if f.PerDay? { WindowNarrows(s.ledger.book, key, s.now, s'.now); }
    }
    ShrinkingKeeps(cfg, f, s, s');
  }

  // Reading the claims, and rebuilding memory from the log.
  lemma RereadKeeps(cfg: Config, f: Figure, s: Sys, t: Step)
    requires Kept(cfg, f, s) && Durable(s.ledger, s.log) && (t.Refresh? || t.Restart?)
    ensures Kept(cfg, f, Do(cfg, s, t))
  {
    forall key ensures Taken(f, Do(cfg, s, t), key) == Taken(f, s, key) {
      ClaimsMoveNothing(s.ledger.book, LoggedClaims(s.log), SliceOf(f, key, s.now));
      RestartKeepsTotal(s.ledger, s.log, SliceOf(f, key, s.now));
    }
    ShrinkingKeeps(cfg, f, s, Do(cfg, s, t));
  }

  predicate Quiet(t: Step) {
    t.Enter? || t.TakeOrg? || t.TakeJob? || t.Fail? || t.FreeJob? || t.FreeOrg? || t.Claim?
  }

  lemma QuietFacts(cfg: Config, s: Sys, t: Step)
    requires Enabled(s, t) && Quiet(t)
    ensures var s' := Do(cfg, s, t);
            && s'.ledger == s.ledger && s'.now == s.now
            && (forall tid :: At(s', tid, Passed) ==>
                  At(s, tid, Passed) && s'.threads[tid].intent == s.threads[tid].intent)
  {
  }

  lemma QuietKeeps(cfg: Config, f: Figure, s: Sys, t: Step)
    requires Kept(cfg, f, s) && Enabled(s, t) && Quiet(t)
    ensures Kept(cfg, f, Do(cfg, s, t))
  {
    QuietFacts(cfg, s, t);
    ShrinkingKeeps(cfg, f, s, Do(cfg, s, t));
  }

  lemma FigureKept(cfg: Config, f: Figure, s: Sys, t: Step)
    requires Representable(cfg) && Enabled(s, t)
    requires Kept(cfg, f, s) && GateInv(s) && Durable(s.ledger, s.log)
    requires f.PerDay? && t.Judge? ==> ChargesOwn(s.ledger, s.threads[t.tid].intent)
    ensures Kept(cfg, f, Do(cfg, s, t))
  {
    match t {
      case Judge(tid) => JudgeKeeps(cfg, f, s, tid);
      case PlaceHold(tid, appended) => HoldKeeps(cfg, f, s, tid, appended);
      case CommitHold(_, _, _) => ClosingKeeps(cfg, f, s, t);
      case ReleaseHold(_, _) => ClosingKeeps(cfg, f, s, t);
      case Tick(nanos) => TickKeeps(cfg, f, s, nanos);
      case Refresh => RereadKeeps(cfg, f, s, t);
      case Restart => RereadKeeps(cfg, f, s, t);
      case _ => QuietKeeps(cfg, f, s, t);
    }
  }

  // ----- Where a figure comes from -----

  // The step put a row in the log.
  ghost predicate Logs(cfg: Config, s: Sys, t: Step)
    requires Enabled(s, t)
  {
    |Do(cfg, s, t).log| > |s.log|
  }

  // What a step adds to a figure: a hold its intent's own amount; a commit what was paid over what
  // was held; a release, less what was held.
  ghost function Contribution(cfg: Config, s: Sys, t: Step, slice: Slice): int
    requires Enabled(s, t)
  {
    if !Logs(cfg, s, t) then 0
    else
      match t
      case PlaceHold(tid, _) =>
        var i := s.threads[tid].intent;
        if CountsToward(slice, i.jobId, i.orgId, Millis(s.now)) then i.amountMicros else 0
      case CommitHold(id, paid, _) =>
        var h := Lookup(s.ledger.book, id).hold;
        if CountsToward(slice, h.jobId, h.orgId, h.reservedAt) then paid - h.micros else 0
      case ReleaseHold(id, _) =>
        var h := Lookup(s.ledger.book, id).hold;
        if CountsToward(slice, h.jobId, h.orgId, h.reservedAt) then -h.micros else 0
      case _ => 0
  }

  ghost function History(cfg: Config, states: seq<Sys>, steps: seq<Step>, k: nat, slice: Slice): int
    requires Run(cfg, states, steps) && k <= |steps|
  {
    if k == 0 then 0
    else History(cfg, states, steps, k - 1, slice) + Contribution(cfg, states[k - 1], steps[k - 1], slice)
  }

  predicate HoldsSome(e: Entry) {
    e.reserved ==> e.hold.micros > 0
  }

  ghost predicate AllHold(s: State) {
    forall id :: HoldsSome(Lookup(s.book, id))
  }

  lemma AllHoldKept(cfg: Config, s: Sys, t: Step)
    requires AllHold(s.ledger) && Durable(s.ledger, s.log) && Enabled(s, t)
    ensures AllHold(Do(cfg, s, t).ledger)
  {
    forall id ensures HoldsSome(Lookup(Do(cfg, s, t).ledger.book, id)) {
      assert HoldsSome(Lookup(s.ledger.book, id)) && SameEntry(Lookup(s.ledger.book, id), Lookup(Fold(s.log).book, id));
      if t.Refresh? { ClaimsLookup(s.ledger.book, LoggedClaims(s.log)); }
    }
  }

  lemma PlacedContributes(cfg: Config, s: Sys, tid: nat, appended: bool, slice: Slice)
    requires Enabled(s, PlaceHold(tid, appended))
    ensures var t := PlaceHold(tid, appended);
            Total(Do(cfg, s, t).ledger.book, slice) == Total(s.ledger.book, slice) + Contribution(cfg, s, t, slice)
  {
    var id, h := s.threads[tid].id, HoldFor(s.threads[tid].intent);
    OnlyTheseMove(s.ledger, id, h, 0, s.now, appended);
    if ReserveEffect(s.ledger, id, h, s.now, appended).2 != [] { ReserveRaises(s.ledger, id, h, s.now, slice); }
  }

  lemma ClosedContributes(cfg: Config, s: Sys, t: Step, slice: Slice)
    requires AllHold(s.ledger) && Enabled(s, t) && (t.CommitHold? || t.ReleaseHold?)
    ensures Total(Do(cfg, s, t).ledger.book, slice) == Total(s.ledger.book, slice) + Contribution(cfg, s, t, slice)
  {
    var paid := if t.CommitHold? then t.paid else 0;
    assert HoldsSome(Lookup(s.ledger.book, t.id));
    OnlyTheseMove(s.ledger, t.id, NO_HOLD, paid, s.now, t.appended);
    if Logs(cfg, s, t) {
      if t.CommitHold? { CommitMoves(s.ledger, t.id, paid, slice); } else { ReleaseLowers(s.ledger, t.id, slice); }
    }
  }

  lemma StepContributes(cfg: Config, s: Sys, t: Step, slice: Slice)
    requires AllHold(s.ledger) && Durable(s.ledger, s.log) && Enabled(s, t)
    ensures Total(Do(cfg, s, t).ledger.book, slice) == Total(s.ledger.book, slice) + Contribution(cfg, s, t, slice)
  {
    match t {
      case PlaceHold(tid, appended) => PlacedContributes(cfg, s, tid, appended, slice);
      case CommitHold(_, _, _) => ClosedContributes(cfg, s, t, slice);
      case ReleaseHold(_, _) => ClosedContributes(cfg, s, t, slice);
      case Refresh => ClaimsMoveNothing(s.ledger.book, LoggedClaims(s.log), slice);
      case Restart => RestartKeepsTotal(s.ledger, s.log, slice);
      case _ =>
    }
  }

  lemma {:induction false} RunDurable(cfg: Config, states: seq<Sys>, steps: seq<Step>, k: nat)
    requires Run(cfg, states, steps) && k <= |steps|
    ensures Durable(states[k].ledger, states[k].log)
    decreases k
  {
    if k > 0 {
      RunDurable(cfg, states, steps, k - 1);
      DurableKept(cfg, states[k - 1], steps[k - 1]);
    }
  }

  // Conservation: in every state of every run, crashes of memory included, each figure is the sum of
  // what the steps so far held, paid and gave back, counted for its own job, org and day.
  lemma {:induction false} FiguresAreTheHistory(cfg: Config, states: seq<Sys>, steps: seq<Step>, k: nat, slice: Slice)
    requires Run(cfg, states, steps) && k <= |steps|
    ensures Total(states[k].ledger.book, slice) == History(cfg, states, steps, k, slice) && AllHold(states[k].ledger)
    decreases k
  {
    if k > 0 {
      FiguresAreTheHistory(cfg, states, steps, k - 1, slice);
      RunDurable(cfg, states, steps, k - 1);
      StepContributes(cfg, states[k - 1], steps[k - 1], slice);
      AllHoldKept(cfg, states[k - 1], steps[k - 1]);
    }
  }

  // ----- Whole runs -----

  ghost predicate Sound(cfg: Config, s: Sys) {
    GateInv(s) && Durable(s.ledger, s.log) && Kept(cfg, PerJob, s)
  }

  lemma {:induction false} RunSound(cfg: Config, states: seq<Sys>, steps: seq<Step>)
    requires Representable(cfg) && Run(cfg, states, steps)
    ensures Sound(cfg, states[|steps|])
  {
    if steps == [] {
      assert forall slice :: Total(states[0].ledger.book, slice) == 0;
    } else {
      var n := |steps| - 1;
      var s, t := states[n], steps[n];
      RunSound(cfg, states[..n + 1], steps[..n]);
      assert states[..n + 1][n] == s;
      GatesKeep(cfg, s, t);
      DurableKept(cfg, s, t);
      FigureKept(cfg, PerJob, s, t);
    }
  }

  // Where every intent names its job's own org, so do the threads and the ledger.
  predicate Attributed(owner: map<string, string>, s: Sys) {
    && (forall tid :: tid in s.threads ==> Owned(owner, s.threads[tid].intent))
    && (forall job :: job in s.ledger.jobOrg ==> job in owner && s.ledger.jobOrg[job] == owner[job])
  }

  lemma AttributedKept(cfg: Config, owner: map<string, string>, s: Sys, t: Step)
    requires Attributed(owner, s) && Enabled(s, t) && Durable(s.ledger, s.log)
    requires t.Enter? ==> Owned(owner, t.intent)
    ensures Attributed(owner, Do(cfg, s, t))
  {
    var s' := Do(cfg, s, t);
    forall tid | tid in s'.threads ensures Owned(owner, s'.threads[tid].intent) {
      assert tid in s.threads ==> Owned(owner, s.threads[tid].intent);
    }
  }

  lemma {:induction false} RunDaily(cfg: Config, owner: map<string, string>, states: seq<Sys>, steps: seq<Step>)
    requires Representable(cfg) && Run(cfg, states, steps) && Lawful(owner, steps)
    ensures Attributed(owner, states[|steps|]) && Kept(cfg, PerDay, states[|steps|])
  {
    if steps == [] {
      assert forall slice :: Total(states[0].ledger.book, slice) == 0;
    } else {
      var n := |steps| - 1;
      var s, t := states[n], steps[n];
      RunDaily(cfg, owner, states[..n + 1], steps[..n]);
      RunSound(cfg, states[..n + 1], steps[..n]);
      assert states[..n + 1][n] == s;
      AttributedKept(cfg, owner, s, t);
      FigureKept(cfg, PerDay, s, t);
    }
  }

  // In every state of every run no job's open holds and committed spend exceed its budget,
  // whoever shares the job; and no org's for the day exceed the cap where each job belongs to one
  // org.
  lemma NeverOversubscribed(cfg: Config, owner: map<string, string>, states: seq<Sys>, steps: seq<Step>, k: nat)
    requires Representable(cfg) && Run(cfg, states, steps) && k <= |steps|
    ensures forall job :: JobTotal(states[k], job) <= Limit(cfg.jobBudget)
    ensures Lawful(owner, steps) ==> forall org :: DayTotal(states[k], org) <= Limit(cfg.dailyCap)
  {
    RunSound(cfg, states[..k + 1], steps[..k]);
    assert states[..k + 1][k] == states[k];
    if Lawful(owner, steps) {
      RunDaily(cfg, owner, states[..k + 1], steps[..k]);
    }
  }

  // Whatever the run, a restart at any moment tells every job's next intake what it would have
  // been told without one.
  lemma RestartsChangeNoFigure(cfg: Config, states: seq<Sys>, steps: seq<Step>, k: nat, job: string)
    requires Run(cfg, states, steps) && k <= |steps|
    ensures var s := states[k];
            SpendOf(Do(cfg, s, Restart).ledger, job, s.now) == SpendOf(s.ledger, job, s.now)
  {
    RunDurable(cfg, states, steps, k);
    RestartKeepsSpend(states[k].ledger, states[k].log, job, states[k].now);
  }
}
