// The daily cap when one job is used by two orgs: the ledger attributes a job to the org of its
// first hold, so the cap is kept in every run exactly when no job is shared.
module BudgetSharing {
  import opened Wrappers
  import opened Intents
  import opened Policy
  import opened Budget
  import opened BudgetRuns
  import opened Traces

  ghost function Next(cfg: Config): (Sys, Step) -> Option<Sys> {
    (s, t) => if Enabled(s, t) then Some(Do(cfg, s, t)) else None
  }

  // ----- One Submit that meets nobody -----

  predicate Idle(s: Sys) {
    s.orgGate == map[] && s.jobGate == map[] && s.threads == map[]
  }

  function IntakeSteps(id: Id, i: Intent): seq<Step> {
    [] + [Enter(0, id, i)] + [TakeOrg(0)] + [TakeJob(0)] + [Judge(0)]
  }

  function SubmitSteps(id: Id, i: Intent): seq<Step> {
    IntakeSteps(id, i) + [PlaceHold(0, true)] + ([] + [FreeJob(0)] + [FreeOrg(0)])
  }

  function Inside(s: Sys, id: Id, i: Intent, stage: Stage): Sys {
    s.(orgGate := map[i.orgId := 0], jobGate := map[i.jobId := 0], threads := map[0 := Thread(id, i, stage)])
  }

  lemma Intake(cfg: Config, s: Sys, id: Id, i: Intent)
    requires Idle(s) && Evaluate(cfg, SpendOf(s.ledger, i.jobId, s.now), i).outcome != Deny
    ensures After(Next(cfg), s, IntakeSteps(id, i)) == Some(Inside(s, id, i, Passed))
  {
    var next := Next(cfg);
    var entered := s.(threads := map[0 := Thread(id, i, Entered)]);
    var org := s.(orgGate := map[i.orgId := 0], threads := map[0 := Thread(id, i, OrgTaken)]);
    var both := Inside(s, id, i, BothTaken);
    assert next(s, Enter(0, id, i)) == Some(entered);
    ThenOnce(next, s, [], s, Enter(0, id, i), entered);
    assert entered.threads[0 := Thread(id, i, OrgTaken)] == org.threads;
    assert next(entered, TakeOrg(0)) == Some(org);
    ThenOnce(next, s, [] + [Enter(0, id, i)], entered, TakeOrg(0), org);
    assert org.threads[0 := Thread(id, i, BothTaken)] == both.threads;
    assert next(org, TakeJob(0)) == Some(both);
    ThenOnce(next, s, [] + [Enter(0, id, i)] + [TakeOrg(0)], org, TakeJob(0), both);
    assert both.threads[0 := Thread(id, i, Passed)] == Inside(s, id, i, Passed).threads;
    assert next(both, Judge(0)) == Some(Inside(s, id, i, Passed));
    ThenOnce(next, s, [] + [Enter(0, id, i)] + [TakeOrg(0)] + [TakeJob(0)], both, Judge(0), Inside(s, id, i, Passed));
  }

  // The way out of both gates.
  lemma Leave(cfg: Config, s: Sys, id: Id, i: Intent)
    requires Idle(s)
    ensures After(Next(cfg), Inside(s, id, i, Finished), [] + [FreeJob(0)] + [FreeOrg(0)]) == Some(s)
  {
    var next, held := Next(cfg), Inside(s, id, i, Finished);
    var freed := held.(jobGate := map[], threads := map[0 := Thread(id, i, JobFreed)]);
    assert held.jobGate - {i.jobId} == map[] && held.threads[0 := Thread(id, i, JobFreed)] == freed.threads;
    assert next(held, FreeJob(0)) == Some(freed);
    ThenOnce(next, held, [], held, FreeJob(0), freed);
    assert freed.orgGate - {i.orgId} == map[] && freed.threads - {0} == map[];
    assert next(freed, FreeOrg(0)) == Some(s);
    ThenOnce(next, held, [] + [FreeJob(0)], freed, FreeOrg(0), s);
  }

  lemma QuietSubmit(cfg: Config, s: Sys, id: Id, i: Intent)
    requires Idle(s) && Evaluate(cfg, SpendOf(s.ledger, i.jobId, s.now), i).outcome != Deny
    ensures After(Next(cfg), s, SubmitSteps(id, i))
            == Some(Effect(s, ReserveEffect(s.ledger, id, HoldFor(i), s.now, true)))
  {
    var next, steps := Next(cfg), IntakeSteps(id, i);
    var done := Effect(s, ReserveEffect(s.ledger, id, HoldFor(i), s.now, true));
    var passed, held := Inside(s, id, i, Passed), Inside(done, id, i, Finished);
    Intake(cfg, s, id, i);
    assert passed.threads[0 := Thread(id, i, Finished)] == held.threads;
    assert next(passed, PlaceHold(0, true)) == Some(held);
    ThenOnce(next, s, steps, passed, PlaceHold(0, true), held);
    Leave(cfg, done, id, i);
    Then(next, s, steps + [PlaceHold(0, true)], held, [] + [FreeJob(0)] + [FreeOrg(0)]);
  }

  // ----- Exactly when the cap is kept -----

  // Which org may spend on which job.
  type Usage = set<(string, string)>

  predicate Uses(u: Usage, steps: seq<Step>) {
    forall k :: 0 <= k < |steps| && steps[k].Enter? ==> (steps[k].intent.jobId, steps[k].intent.orgId) in u
  }

  predicate Unshared(u: Usage) {
    forall a, b :: a in u && b in u && a.0 == b.0 ==> a.1 == b.1
  }

  ghost predicate CapKept(u: Usage) {
    forall cfg, states: seq<Sys>, steps ::
      Representable(cfg) && Run(cfg, states, steps) && Uses(u, steps) ==>
        forall org :: DayTotal(states[|steps|], org) <= Limit(cfg.dailyCap)
  }

  const CFG: Config := Config(100, 10, 10, 10, ["shop"], map[], [])

  function Buy(job: string, org: string, micros: int): Intent {
    Intent("", org, job, "", "", PAYMENT, "shop", "", micros, "", "", "", 0, "", "", "", "", 0, "", "")
  }

  // The held entry of such a purchase at time zero.
  function Bought(job: string, org: string, micros: int): Entry {
    Entry(Budget.Hold(job, org, micros, 0, 0), true, false, StillOpen)
  }

  // Its row in the log.
  function Row(id: Id, job: string, org: string, micros: int): seq<Event> {
    [HoldReserved(id, Budget.Hold(job, org, micros, 0, 0))]
  }

  lemma ReserveBought(s: State, id: Id, job: string, org: string, micros: int)
    requires id != "" && id !in s.book && job != "" && micros > 0
    ensures ReserveEffect(s, id, HoldFor(Buy(job, org, micros)), 0, true)
            == (Done, State(s.book[id := Bought(job, org, micros)], Learn(s.jobOrg, job, org)), Row(id, job, org, micros))
  {
  }

  // One purchase that the configuration allows, from an idle state at time zero.
  lemma BuyStep(s: Sys, id: Id, job: string, org: string, micros: int)
    requires Idle(s) && s.now == 0 && id != "" && id !in s.ledger.book && job != "" && 0 < micros <= 10
    requires var spend := SpendOf(s.ledger, job, 0);
             0 <= spend.jobCommitted <= 100 - micros && 0 <= spend.daily <= 10 - micros
    ensures After(Next(CFG), s, SubmitSteps(id, Buy(job, org, micros)))
            == Some(s.(ledger := State(s.ledger.book[id := Bought(job, org, micros)], Learn(s.ledger.jobOrg, job, org)),
                       log := s.log + Row(id, job, org, micros)))
  {
    ReserveBought(s.ledger, id, job, org, micros);
    QuietSubmit(CFG, s, id, Buy(job, org, micros));
  }

  function Start(ledger: State, log: seq<Event>): Sys {
    Sys(0, ledger, log, map[], map[], map[])
  }

  function OverspendingSteps(job: string, first: string, other: string): seq<Step> {
    SubmitSteps("a", Buy(job, first, 1)) + SubmitSteps("b", Buy(job, other, 6)) + SubmitSteps("c", Buy(job, other, 6))
  }

  lemma Overspending(job: string, first: string, other: string) returns (end: Sys)
    requires job != "" && first != "" && first != other
    ensures After(Next(CFG), Start(State(map[], map[]), []), OverspendingSteps(job, first, other)) == Some(end)
    ensures DayTotal(end, other) == 12
  {
    var next, jobOrg := Next(CFG), map[job := first];
    var s0 := Start(State(map[], map[]), []);
    var l1 := State(map["a" := Bought(job, first, 1)], jobOrg);
    var l2 := State(l1.book["b" := Bought(job, other, 6)], jobOrg);
    var a, b, c := SubmitSteps("a", Buy(job, first, 1)), SubmitSteps("b", Buy(job, other, 6)), SubmitSteps("c", Buy(job, other, 6));
    Figures(job, first, other);
    BuyStep(s0, "a", job, first, 1);
    var s1, s2 := Start(l1, [] + Row("a", job, first, 1)), Start(l2, [] + Row("a", job, first, 1) + Row("b", job, other, 6));
    BuyStep(s1, "b", job, other, 6);
    BuyStep(s2, "c", job, other, 6);
    Then(next, s0, a, s1, b);
    Then(next, s0, a + b, s2, c);
    end := Start(State(l2.book["c" := Bought(job, other, 6)], jobOrg), s2.log + Row("c", job, other, 6));
  }

  lemma StepsUse(job: string, first: string, other: string)
    ensures Uses({(job, first), (job, other)}, OverspendingSteps(job, first, other))
  {
  }

  // The org of the job's first hold is charged for what the other spends: six and six pass a cap
  // of ten.
  lemma SharedOverspends(job: string, first: string, other: string) returns (states: seq<Sys>, steps: seq<Step>)
    requires job != "" && first != "" && first != other
    ensures Run(CFG, states, steps) && Uses({(job, first), (job, other)}, steps)
    ensures DayTotal(states[|steps|], other) == 12
  {
    var s := Start(State(map[], map[]), []);
    steps := OverspendingSteps(job, first, other);
    var end := Overspending(job, first, other);
    StepsUse(job, first, other);
    TraceSteps(Next(CFG), s, steps);
    states := Trace(Next(CFG), s, steps);
    RunOfTrace(CFG, states, steps);
  }

  lemma RunOfTrace(cfg: Config, states: seq<Sys>, steps: seq<Step>)
    requires |states| == |steps| + 1 && Initial(states[0])
    requires forall k :: 0 <= k < |steps| ==> Next(cfg)(states[k], steps[k]) == Some(states[k + 1])
    ensures Run(cfg, states, steps)
  {
    forall k | 0 <= k < |steps| ensures Enabled(states[k], steps[k]) && states[k + 1] == Do(cfg, states[k], steps[k]) {
      assert Next(cfg)(states[k], steps[k]) == Some(states[k + 1]);
    }
  }

  // The figures along that run.
  lemma Figures(job: string, first: string, other: string)
    requires job != "" && first != "" && first != other
    ensures var l1 := State(map["a" := Bought(job, first, 1)], map[job := first]);
            var l2 := State(l1.book["b" := Bought(job, other, 6)], map[job := first]);
            var l3 := l2.book["c" := Bought(job, other, 6)];
            && SpendOf(State(map[], map[]), job, 0) == Spend(0, 0)
            && SpendOf(l1, job, 0) == Spend(1, 1) && SpendOf(l2, job, 0) == Spend(7, 1)
            && Total(l3, OfOrg(other, WindowStart(0))) == 12
  {
    assert WindowStart(0) == 0;
    FiguresOf(job, first, other, OfJob(job));
    FiguresOf(job, first, other, OfOrg(first, 0));
    FiguresOf(job, first, other, OfOrg(other, 0));
  }

  lemma FiguresOf(job: string, first: string, other: string, slice: Slice)
    ensures var a, b := Worth(Bought(job, first, 1), slice), Worth(Bought(job, other, 6), slice);
            var m1 := map["a" := Bought(job, first, 1)];
            var m2 := m1["b" := Bought(job, other, 6)];
            && Total(m1, slice) == a && Total(m2, slice) == a + b
            && Total(m2["c" := Bought(job, other, 6)], slice) == a + b + b
  {
    var m0: Book := map[];
    var m1 := map["a" := Bought(job, first, 1)];
    var m2 := m1["b" := Bought(job, other, 6)];
    assert m1 == m0["a" := Bought(job, first, 1)];
    TotalUpdate(m0, slice, "a", Bought(job, first, 1));
    TotalUpdate(m1, slice, "b", Bought(job, other, 6));
    TotalUpdate(m2, slice, "c", Bought(job, other, 6));
  }

  lemma OwnerOf(u: Usage) returns (owner: map<string, string>)
    requires Unshared(u)
    ensures forall p :: p in u ==> p.0 in owner && owner[p.0] == p.1
  {
    var jobs := set p | p in u :: p.0;
    forall j | j in jobs ensures exists org :: (j, org) in u {
      var p :| p in u && p.0 == j;
      assert (j, p.1) in u;
    }
    owner := map j | j in jobs :: (var org :| (j, org) in u; org);
    forall p | p in u ensures p.0 in owner && owner[p.0] == p.1 {
      assert p.0 in jobs;
      assert (p.0, owner[p.0]) in u;
    }
  }

  // For jobs that have a name, the daily cap is kept in every run exactly when no job is shared.
  lemma CapKeptExactly(u: Usage)
    requires forall p :: p in u ==> p.0 != ""
    ensures CapKept(u) <==> Unshared(u)
  {
    if Unshared(u) {
      var owner := OwnerOf(u);
      forall cfg, states: seq<Sys>, steps | Representable(cfg) && Run(cfg, states, steps) && Uses(u, steps)
        ensures forall org :: DayTotal(states[|steps|], org) <= Limit(cfg.dailyCap)
      {
        NeverOversubscribed(cfg, owner, states, steps, |steps|);
      }
    } else {
      var a, b :| a in u && b in u && a.0 == b.0 && a.1 != b.1;
      var first, other := if a.1 != "" then a.1 else b.1, if a.1 != "" then b.1 else a.1;
      var states, steps := SharedOverspends(a.0, first, other);
      assert Representable(CFG) && Uses(u, steps);
      assert DayTotal(states[|steps|], other) > Limit(CFG.dailyCap);
    }
  }
}
