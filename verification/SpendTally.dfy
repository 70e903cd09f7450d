// The money graph's spend total (dashboard/components/MoneyGraph.tsx): one purchase reported by
// two sources counts once, whichever reports it first.
module SpendTally {
  import opened Wrappers
  import opened Decimals

  datatype Message = Message(id: string, kind: string, approved: bool, amount: Option<string>)

  datatype Beat = Fund | Snap | Spend | Reject | Repay | Fall | Flywheel | Reset

  function BeatFor(m: Message): Option<Beat> {
    match m.kind
    case "JobFunded" => Some(Fund)
    case "job.funded" => Some(Fund)
    case "AdvanceIssued" => Some(Snap)
    case "advance.issued" => Some(Snap)
    case "advance.executed" => Some(Snap)
    case "ExpenseRecorded" => Some(Spend)
    case "payment.executed" => Some(Spend)
    case "payment.delivered" => Some(Spend)
    case "approval.alternative_found" => Some(Spend)
    case "approval.requested" => if m.approved then Some(Spend) else None
    case "approval.reject" => Some(Reject)
    case "approval.rejected" => Some(Reject)
    case "approval.request_alternative" => Some(Reject)
    case "AdvanceRepaid" => Some(Repay)
    case "JobSettled" => Some(Fall)
    case "RateChanged" => Some(Flywheel)
    case "rate.updated" => Some(Flywheel)
    case "job.draft.created" => Some(Reset)
    case _ => None
  }

  // ----- The kinds, by what they mean for the money -----

  const SPENDS: set<string> := {"ExpenseRecorded", "payment.executed", "payment.delivered", "approval.alternative_found"}
  const STARTS: set<string> := {"JobFunded", "job.funded", "job.draft.created"}

  // Money out of the treasury: a spend kind, or an approval request once it is approved; with an
  // amount that is a positive number of digits.
  predicate Purchases(m: Message) {
    && (m.kind in SPENDS || (m.kind == "approval.requested" && m.approved))
    && m.amount.Some? && AllDigits(m.amount.value) && Value(m.amount.value) > 0
  }

  predicate StartsCycle(m: Message) {
    m.kind in STARTS
  }

  lemma BeatsByKind(m: Message)
    ensures BeatFor(m) == Some(Spend) <==> m.kind in SPENDS || (m.kind == "approval.requested" && m.approved)
    ensures BeatFor(m) == Some(Fund) || BeatFor(m) == Some(Reset) <==> StartsCycle(m)
    ensures BeatFor(m) == Some(Reset) <==> m.kind == "job.draft.created"
    ensures BeatFor(m) == Some(Snap) <==> m.kind in {"AdvanceIssued", "advance.issued", "advance.executed"}
    ensures BeatFor(m) == Some(Reject) <==>
              m.kind in {"approval.reject", "approval.rejected", "approval.request_alternative"}
    ensures BeatFor(m) == Some(Repay) <==> m.kind == "AdvanceRepaid"
    ensures BeatFor(m) == Some(Fall) <==> m.kind == "JobSettled"
    ensures BeatFor(m) == Some(Flywheel) <==> m.kind in {"RateChanged", "rate.updated"}
    ensures IsSpend(m) <==> Purchases(m)
  {
    assert Value("") == 0;
  }

  predicate FromChain(m: Message) {
    m.kind == "ExpenseRecorded"
  }

  // Atomic USDC that cannot throw: anything but digits counts as zero.
  function Atomic(s: Option<string>): nat {
    if s.Some? && s.value != "" && AllDigits(s.value) then Value(s.value) else 0
  }

  datatype Tally = Tally(daemon: nat, chain: nat)

  type Tallies = map<string, Tally>

  function TallyOf(ts: Tallies, key: string): Tally {
    if key in ts then ts[key] else Tally(0, 0)
  }

  function Larger(t: Tally): nat {
    if t.daemon >= t.chain then t.daemon else t.chain
  }

  // A spend in the graph's sense: an amountless one is no spend at all.
  predicate IsSpend(m: Message) {
    BeatFor(m) == Some(Spend) && Atomic(m.amount) > 0
  }

  function Counted(ts: Tallies, m: Message): Tally
    requires IsSpend(m)
  {
    var t := TallyOf(ts, m.amount.value);
    if FromChain(m) then t.(chain := t.chain + 1) else t.(daemon := t.daemon + 1)
  }

  // `spent` is unknown until a cycle starts or a spend is seen.
  datatype Graph = Graph(lastId: Option<string>, spent: Option<nat>, tallies: Tallies)

  // What one message does to the total.
  function Shown(g: Graph, m: Message): Graph {
    if g.lastId == Some(m.id) then g
    else
      var g' := g.(lastId := Some(m.id));
      match BeatFor(m)
      case Some(Fund) => g'.(spent := Some(0), tallies := map[])
      case Some(Reset) => g'.(spent := Some(0), tallies := map[])
      case Some(Spend) =>
        if Atomic(m.amount) == 0 then g'
        else
          var t := Counted(g.tallies, m);
          var mine, other := if FromChain(m) then t.chain else t.daemon, if FromChain(m) then t.daemon else t.chain;
          var base := match g.spent case Some(n) => n case None => 0;
          g'.(tallies := g.tallies[m.amount.value := t],
              spent := if mine <= other then g.spent else Some(base + Atomic(m.amount)))
      case _ => g'
  }

  class MoneyGraph {
    var lastId: Option<string>
    var spent: Option<nat>
    var spendTally: Tallies

    function View(): Graph
      reads this
    {
      Graph(lastId, spent, spendTally)
    }

    constructor ()
      ensures View() == Graph(None, None, map[])
    {
      lastId, spent, spendTally := None, None, map[];
    }

    method Show(latest: Message)
      modifies this
      ensures View() == Shown(old(View()), latest)
    {
      if Some(latest.id) == lastId {
        return;
      }
      lastId := Some(latest.id);
      var next := BeatFor(latest);
      if next.None? {
        return;
      }
      var amount := Atomic(latest.amount);
      if next.value == Spend && amount == 0 {
        return;
      }
      match next.value {
        case Fund =>
          spent := Some(0);
          spendTally := map[];
        case Reset =>
          spent := Some(0);
          spendTally := map[];
        case Spend =>
          var key := latest.amount.value;
          var tally := TallyOf(spendTally, key);
          if FromChain(latest) {
            tally := tally.(chain := tally.chain + 1);
          } else {
            tally := tally.(daemon := tally.daemon + 1);
          }
          spendTally := spendTally[key := tally];
          var mine, other := if FromChain(latest) then tally.chain else tally.daemon,
                             if FromChain(latest) then tally.daemon else tally.chain;
          if mine <= other {
            return;
          }
          spent := Some(amount + match spent case Some(n) => n case None => 0);
        case _ =>
      }
    }
  }

  // ----- The total over the tallies -----

  function Share(key: string, t: Tally): nat {
    Atomic(Some(key)) * Larger(t)
  }

  ghost function Total(ts: Tallies): nat {
    if ts == map[] then 0
    else
      var key :| key in ts;
      Share(key, ts[key]) + Total(ts - {key})
  }

  lemma {:induction false} TotalWithout(ts: Tallies, key: string)
    requires key in ts
    ensures Total(ts) == Share(key, ts[key]) + Total(ts - {key})
    decreases |ts|
  {
    var x :| x in ts && Total(ts) == Share(x, ts[x]) + Total(ts - {x});
    if x != key {
      TotalWithout(ts - {x}, key);
      TotalWithout(ts - {key}, x);
      assert ts - {x} - {key} == ts - {key} - {x};
    }
  }

  lemma TotalUpdate(ts: Tallies, key: string, t: Tally)
    ensures Total(ts[key := t]) == Total(ts) - Share(key, TallyOf(ts, key)) + Share(key, t)
  {
    TotalWithout(ts[key := t], key);
    if key in ts {
      TotalWithout(ts, key);
      assert ts[key := t] - {key} == ts - {key};
    } else {
      assert ts[key := t] - {key} == ts;
      assert Larger(Tally(0, 0)) == 0;
    }
  }

  // ----- Over a cycle -----

  // The messages of a cycle: none starts another.
  predicate Within(ms: seq<Message>) {
    forall k :: 0 <= k < |ms| ==> !StartsCycle(ms[k])
  }

  function Replay(g: Graph, ms: seq<Message>): Graph {
    if ms == [] then g else Shown(Replay(g, ms[..|ms| - 1]), ms[|ms| - 1])
  }

  // The messages that are heard: an immediate repetition of an id is not.
  function Heard(last: Option<string>, ms: seq<Message>): seq<Message> {
    if ms == [] then []
    else
      var init, m := ms[..|ms| - 1], ms[|ms| - 1];
      var before := if init == [] then last else Some(init[|init| - 1].id);
      Heard(last, init) + if before == Some(m.id) then [] else [m]
  }

  function Count(ms: seq<Message>, sel: Message -> bool): nat {
    if ms == [] then 0 else Count(ms[..|ms| - 1], sel) + if sel(ms[|ms| - 1]) then 1 else 0
  }

  // A report of an amount by one side.
  function Report(key: string, chain: bool): Message -> bool {
    m => Purchases(m) && m.amount == Some(key) && (m.kind == "ExpenseRecorded") == chain
  }

  // How often one side reported spends of an amount.
  function Reports(ms: seq<Message>, key: string, chain: bool): nat {
    Count(ms, Report(key, chain))
  }

  lemma CountAppend(ms: seq<Message>, m: Message, sel: Message -> bool)
    ensures Count(ms + [m], sel) == Count(ms, sel) + if sel(m) then 1 else 0
  {
    assert (ms + [m])[..|ms|] == ms;
  }

  // A start makes the total a known zero and forgets the tallies; a message that neither starts a
  // cycle nor spends, or one just heard, leaves both alone; a first spend makes an unknown total known.
  lemma MessagesByKind(g: Graph, m: Message)
    ensures var g' := Shown(g, m);
            && g'.lastId == Some(m.id)
            && (g.lastId != Some(m.id) && StartsCycle(m) ==> g'.spent == Some(0) && g'.tallies == map[])
            && (g.lastId == Some(m.id) || (!StartsCycle(m) && !Purchases(m)) ==> g'.spent == g.spent && g'.tallies == g.tallies)
            && (g.lastId != Some(m.id) && Purchases(m) && m.amount.value !in g.tallies ==>
                  g'.spent == Some(Value(m.amount.value) + match g.spent case Some(n) => n case None => 0))
  {
    BeatsByKind(m);
  }

  // One heard message of a cycle keeps the total equal to the sum over the tallies.
  lemma ShownKeeps(g: Graph, m: Message)
    requires g.spent == Some(Total(g.tallies)) && BeatFor(m) != Some(Fund) && BeatFor(m) != Some(Reset)
    ensures Shown(g, m).spent == Some(Total(Shown(g, m).tallies))
  {
    if g.lastId != Some(m.id) && IsSpend(m) {
      var key := m.amount.value;
      TotalUpdate(g.tallies, key, Counted(g.tallies, m));
      CountedShare(g.tallies, m);
    }
  }

  lemma CountedShare(ts: Tallies, m: Message)
    requires IsSpend(m)
    ensures var t := Counted(ts, m);
            var mine, other := if FromChain(m) then t.chain else t.daemon, if FromChain(m) then t.daemon else t.chain;
            Share(m.amount.value, t) == Share(m.amount.value, TallyOf(ts, m.amount.value))
                                        + if mine <= other then 0 else Atomic(m.amount)
  {
    var was, t := TallyOf(ts, m.amount.value), Counted(ts, m);
    assert Larger(t) == Larger(was) || Larger(t) == Larger(was) + 1;
  }

  // From a cycle's start, whatever arrives in whatever order: each amount's tally is what each
  // source reported, and the total is the sum of each amount times the larger of the two.
  lemma {:induction false} TotalIsLargerSum(g: Graph, ms: seq<Message>)
    requires g.spent == Some(0) && g.tallies == map[] && Within(ms)
    ensures var g' := Replay(g, ms);
            && g'.spent == Some(Total(g'.tallies))
            && g'.lastId == (if ms == [] then g.lastId else Some(ms[|ms| - 1].id))
            && forall key :: TallyOf(g'.tallies, key) ==
                 Tally(Reports(Heard(g.lastId, ms), key, false), Reports(Heard(g.lastId, ms), key, true))
  {
    if ms != [] {
      var init, m := ms[..|ms| - 1], ms[|ms| - 1];
      BeatsByKind(m);
      TotalIsLargerSum(g, init);
      ShownKeeps(Replay(g, init), m);
      if Replay(g, init).lastId != Some(m.id) {
        TalliesStep(Replay(g, init), Heard(g.lastId, init), m);
      }
      assert Heard(g.lastId, init) + [] == Heard(g.lastId, init);
    }
  }

  // One side's reports after one more message.
  lemma ReportsAppend(ms: seq<Message>, m: Message, key: string, chain: bool)
    ensures Reports(ms + [m], key, chain) ==
            Reports(ms, key, chain) + if Purchases(m) && m.amount == Some(key) && (m.kind == "ExpenseRecorded") == chain then 1 else 0
  {
    CountAppend(ms, m, Report(key, chain));
  }

  lemma ShownTally(g: Graph, m: Message, key: string)
    requires g.lastId != Some(m.id) && BeatFor(m) != Some(Fund) && BeatFor(m) != Some(Reset)
    ensures var t := TallyOf(g.tallies, key);
            TallyOf(Shown(g, m).tallies, key) ==
            if !Purchases(m) || m.amount != Some(key) then t
            else if m.kind == "ExpenseRecorded" then Tally(t.daemon, t.chain + 1) else Tally(t.daemon + 1, t.chain)
  {
    BeatsByKind(m);
  }

  lemma TalliesStep(g: Graph, heard: seq<Message>, m: Message)
    requires forall key :: TallyOf(g.tallies, key) == Tally(Reports(heard, key, false), Reports(heard, key, true))
    requires g.lastId != Some(m.id) && BeatFor(m) != Some(Fund) && BeatFor(m) != Some(Reset)
    ensures forall key :: TallyOf(Shown(g, m).tallies, key) ==
              Tally(Reports(heard + [m], key, false), Reports(heard + [m], key, true))
  {
    forall key ensures TallyOf(Shown(g, m).tallies, key) ==
                 Tally(Reports(heard + [m], key, false), Reports(heard + [m], key, true))
    {
      ShownTally(g, m, key);
      ReportsAppend(heard, m, key, false);
      ReportsAppend(heard, m, key, true);
    }
  }

  lemma TotalDrop(ts: Tallies, key: string)
    ensures Total(ts) == Share(key, TallyOf(ts, key)) + Total(ts - {key})
    ensures forall x :: TallyOf(ts - {key}, x) == if x == key then Tally(0, 0) else TallyOf(ts, x)
  {
    if key in ts { TotalWithout(ts, key); } else { assert ts - {key} == ts; }
  }

  // Tallies that agree at every key have the same total.
  lemma {:induction false} TotalAgrees(a: Tallies, b: Tallies)
    requires forall key :: TallyOf(a, key) == TallyOf(b, key)
    ensures Total(a) == Total(b)
    decreases |a|
  {
    if a == map[] {
      TotalZero(b);
    } else {
      var key :| key in a;
      TotalDrop(a, key);
      TotalDrop(b, key);
      TotalAgrees(a - {key}, b - {key});
    }
  }

  lemma {:induction false} TotalZero(ts: Tallies)
    requires forall key :: TallyOf(ts, key) == Tally(0, 0)
    ensures Total(ts) == 0
    decreases |ts|
  {
    if ts != map[] {
      var key :| key in ts;
      TotalDrop(ts, key);
      TotalZero(ts - {key});
    }
  }

  // ----- Arrival order -----

  predicate DistinctIds(ms: seq<Message>) {
    forall j, k :: 0 <= j < k < |ms| ==> ms[j].id != ms[k].id
  }

  lemma {:induction false} AllHeard(last: Option<string>, ms: seq<Message>)
    requires DistinctIds(ms) && forall k :: 0 <= k < |ms| ==> last != Some(ms[k].id)
    ensures Heard(last, ms) == ms
  {
    if ms != [] {
      var init, m := ms[..|ms| - 1], ms[|ms| - 1];
      AllHeard(last, init);
      assert init != [] ==> init[|init| - 1].id != m.id;
      assert Heard(last, ms) == init + [m];
    }
  }

  lemma {:induction false} CountJoin(a: seq<Message>, b: seq<Message>, sel: Message -> bool)
    ensures Count(a + b, sel) == Count(a, sel) + Count(b, sel)
  {
    if b == [] {
      assert a + b == a;
    } else {
      var init := b[..|b| - 1];
      assert (a + b)[..|a + b| - 1] == a + init;
      CountJoin(a, init, sel);
    }
  }

  lemma RemoveAt(ms: seq<Message>, k: nat, sel: Message -> bool)
    requires k < |ms|
    ensures var rest := ms[..k] + ms[k + 1..];
            && multiset(rest) == multiset(ms) - multiset{ms[k]}
            && Count(ms, sel) == Count(rest, sel) + if sel(ms[k]) then 1 else 0
  {
    var front, back := ms[..k], ms[k + 1..];
    assert ms == front + [ms[k]] + back;
    assert multiset(ms) == multiset(front) + multiset{ms[k]} + multiset(back);
    CountAppend(front, ms[k], sel);
    CountJoin(front + [ms[k]], back, sel);
    CountJoin(front, back, sel);
  }

  // What is counted does not depend on the order of arrival.
  lemma {:induction false} CountReorder(a: seq<Message>, b: seq<Message>, sel: Message -> bool)
    requires multiset(a) == multiset(b)
    ensures Count(a, sel) == Count(b, sel)
    decreases |a|
  {
    if a == [] {
      assert |multiset(b)| == 0;
    } else {
      assert a[0] in multiset(b);
      var k :| 0 <= k < |b| && b[k] == a[0];
      var restA, restB := a[..0] + a[1..], b[..k] + b[k + 1..];
      RemoveAt(a, 0, sel);
      RemoveAt(b, k, sel);
      assert multiset(restA) == multiset(restB);
      CountReorder(restA, restB, sel);
    }
  }

  // From a cycle's start, the same messages in any order of arrival give the same total.
  lemma ArrivalOrderIsIrrelevant(g: Graph, a: seq<Message>, b: seq<Message>)
    requires g.spent == Some(0) && g.tallies == map[] && Within(a) && Within(b)
    requires multiset(a) == multiset(b) && DistinctIds(a) && DistinctIds(b)
    requires forall k :: 0 <= k < |a| ==> g.lastId != Some(a[k].id)
    ensures Replay(g, a).spent == Replay(g, b).spent
  {
    forall k | 0 <= k < |b| ensures g.lastId != Some(b[k].id) {
      assert b[k] in multiset(a);
    }
    AllHeard(g.lastId, a);
    AllHeard(g.lastId, b);
    TotalIsLargerSum(g, a);
    TotalIsLargerSum(g, b);
    var ta, tb := Replay(g, a).tallies, Replay(g, b).tallies;
    forall key ensures TallyOf(ta, key) == TallyOf(tb, key) {
      CountReorder(a, b, Report(key, false));
      CountReorder(a, b, Report(key, true));
    }
    TotalAgrees(ta, tb);
  }
}
