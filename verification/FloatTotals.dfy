// What a scan holds, told from the logs alone: each total is the sum of its own word over the events
// that carry it, the open advances are the issues nothing has ended, the rate ticks are the changes
// in order (dashboard/lib/floatChain.ts).
module FloatTotals {
  import opened Wrappers
  import opened FloatLogs
  import opened FloatScan
  import opened Decimals
  import Snap = FloatSnapshots

  // The words of money an event carries.
  datatype Figure = Fee | Bond | Reserve | Loss

  function WordOf(log: Log, f: Figure): nat {
    match Decode(log)
    case Some(Repay(_, fee)) => if f.Fee? then fee else 0
    case Some(WriteOff(_, bond, reserve, loss)) =>
      (match f case Fee => 0 case Bond => bond case Reserve => reserve case Loss => loss)
    case _ => 0
  }

  function Sum(logs: seq<Log>, f: Figure): nat {
    if logs == [] then 0 else Sum(logs[..|logs| - 1], f) + WordOf(logs[|logs| - 1], f)
  }

  predicate Issues(log: Log, job: string) {
    Decode(log).Some? && Decode(log).value.Issue? && Decode(log).value.job == job
  }

  // A repayment or a write-off ends the job's advance.
  predicate Ends(log: Log, job: string) {
    && Decode(log).Some? && (Decode(log).value.Repay? || Decode(log).value.WriteOff?)
    && Decode(log).value.job == job
  }

  // The log at `k` is the job's last issue, and nothing has ended it since.
  predicate OpenSince(logs: seq<Log>, k: nat, job: string) {
    k < |logs| && Issues(logs[k], job) && forall j :: k < j < |logs| ==> !Issues(logs[j], job) && !Ends(logs[j], job)
  }

  // The advance an issue opens.
  function Opened(times: Times, log: Log): Advance
    requires Decode(log).Some? && Decode(log).value.Issue?
  {
    var c := Decode(log).value;
    Advance(c.job, c.org, c.principal, c.fee, c.rateBps, Some(times(log.blockNumber)), log.txHash)
  }

  ghost predicate OpenExactly(times: Times, open: map<string, Advance>, logs: seq<Log>) {
    forall job :: OpenAt(times, open, logs, job)
  }

  // The job is open exactly since some issue, and as that issue opened it.
  ghost predicate OpenAt(times: Times, open: map<string, Advance>, logs: seq<Log>, job: string) {
    && (job in open <==> exists k: nat :: OpenSince(logs, k, job))
    && (forall k: nat :: OpenSince(logs, k, job) ==> open[job] == Opened(times, logs[k]))
  }

  function RateChanges(logs: seq<Log>): seq<Tick> {
    if logs == [] then []
    else
      var log := logs[|logs| - 1];
      RateChanges(logs[..|logs| - 1]) +
      match Decode(log)
      case Some(RateTick(org, bps)) => [Tick(org, bps, log.blockNumber, log.txHash)]
      case _ => []
  }

  function LastOrg(logs: seq<Log>): Option<string> {
    if logs == [] then None
    else
      match Decode(logs[|logs| - 1])
      case Some(Issue(_, org, _, _, _)) => Some(org)
      case _ => LastOrg(logs[..|logs| - 1])
  }

  ghost predicate Holds(times: Times, h: History, logs: seq<Log>) {
    && h.fees == Sum(logs, Fee) && h.bondSlashed == Sum(logs, Bond)
    && h.reserveUsed == Sum(logs, Reserve) && h.socialized == Sum(logs, Loss)
    && h.ticks == RateChanges(logs) && h.latestOrg == LastOrg(logs)
    && OpenExactly(times, h.open, logs)
  }

  // How one more log moves which issue is the open one.
  lemma OpenSinceAppend(logs: seq<Log>, log: Log, job: string, k: nat)
    ensures OpenSince(logs + [log], k, job) <==>
              || (k == |logs| && Issues(log, job))
              || (OpenSince(logs, k, job) && !Issues(log, job) && !Ends(log, job))
  {
    var more := logs + [log];
    assert more[|logs|] == log;
    assert forall j :: 0 <= j < |logs| ==> more[j] == logs[j];
  }

  // What one log does to one job.
  lemma OpenOf(times: Times, h: History, log: Log, job: string)
    requires Apply(times, h, log).Some?
    ensures var open := Apply(times, h, log).value.open;
            && (Issues(log, job) ==> job in open && open[job] == Opened(times, log))
            && (Ends(log, job) ==> job !in open)
            && (!Issues(log, job) && !Ends(log, job) ==>
                  (job in open <==> job in h.open) && (job in open ==> open[job] == h.open[job]))
  {
  }

  lemma OpenAtAppend(times: Times, open: map<string, Advance>, after: map<string, Advance>, logs: seq<Log>, log: Log, job: string)
    requires OpenAt(times, open, logs, job)
    requires Issues(log, job) ==> job in after && after[job] == Opened(times, log)
    requires Ends(log, job) ==> job !in after
    requires !Issues(log, job) && !Ends(log, job) ==>
               (job in after <==> job in open) && (job in after ==> after[job] == open[job])
    ensures OpenAt(times, after, logs + [log], job)
  {
    var more := logs + [log];
    forall k: nat ensures OpenSince(more, k, job) <==>
                            || (k == |logs| && Issues(log, job))
                            || (OpenSince(logs, k, job) && !Issues(log, job) && !Ends(log, job))
    {
      OpenSinceAppend(logs, log, job, k);
    }
    if Issues(log, job) {
      assert OpenSince(more, |logs|, job);
    } else if job in after {
      var k: nat :| OpenSince(logs, k, job);
      assert OpenSince(more, k, job);
    }
  }

  lemma OpenAppend(times: Times, h: History, logs: seq<Log>, log: Log)
    requires OpenExactly(times, h.open, logs) && Apply(times, h, log).Some?
    ensures OpenExactly(times, Apply(times, h, log).value.open, logs + [log])
  {
    forall job ensures OpenAt(times, Apply(times, h, log).value.open, logs + [log], job) {
      assert OpenAt(times, h.open, logs, job);
      OpenOf(times, h, log, job);
      OpenAtAppend(times, h.open, Apply(times, h, log).value.open, logs, log, job);
    }
  }

  lemma TotalsAppend(times: Times, h: History, logs: seq<Log>, log: Log)
    requires Apply(times, h, log).Some?
    ensures var h' := Apply(times, h, log).value;
            && h'.fees == h.fees + WordOf(log, Fee) && h'.bondSlashed == h.bondSlashed + WordOf(log, Bond)
            && h'.reserveUsed == h.reserveUsed + WordOf(log, Reserve) && h'.socialized == h.socialized + WordOf(log, Loss)
            && (h.ticks == RateChanges(logs) ==> h'.ticks == RateChanges(logs + [log]))
            && (h.latestOrg == LastOrg(logs) ==> h'.latestOrg == LastOrg(logs + [log]))
  {
    assert (logs + [log])[..|logs|] == logs;
  }

  lemma SumAppend(logs: seq<Log>, log: Log, f: Figure)
    ensures Sum(logs + [log], f) == Sum(logs, f) + WordOf(log, f)
  {
    assert (logs + [log])[..|logs|] == logs;
  }

  lemma HoldsAppend(times: Times, h: History, logs: seq<Log>, log: Log)
    requires Holds(times, h, logs) && Apply(times, h, log).Some?
    ensures Holds(times, Apply(times, h, log).value, logs + [log])
  {
    TotalsAppend(times, h, logs, log);
    SumAppend(logs, log, Fee);
    SumAppend(logs, log, Bond);
    SumAppend(logs, log, Reserve);
    SumAppend(logs, log, Loss);
    OpenAppend(times, h, logs, log);
  }

  lemma {:induction false} FoldHolds(times: Times, logs: seq<Log>)
    requires FoldLogs(times, EMPTY, logs).Some?
    ensures Holds(times, FoldLogs(times, EMPTY, logs).value, logs)
  {
    if logs != [] {
      var init, log := logs[..|logs| - 1], logs[|logs| - 1];
      FoldHolds(times, init);
      assert logs == init + [log];
      HoldsAppend(times, FoldLogs(times, EMPTY, init).value, init, log);
    }
  }

  // A scan fails exactly on a log that does not decode.
  lemma {:induction false} FoldFails(times: Times, h: History, logs: seq<Log>)
    ensures FoldLogs(times, h, logs).Some? <==> forall log :: log in logs ==> Decode(log).Some?
  {
    if logs != [] {
      var init := logs[..|logs| - 1];
      FoldFails(times, h, init);
      assert logs == init + [logs[|logs| - 1]];
    }
  }

  // A full scan holds, word by word and job by job, what the logs of its range say.
  lemma FullScanHolds(world: World, times: Times, key: Key, through: int, h: History)
    requires FullScan(world, times, key, through) == Some(h)
    ensures Holds(times, h, LogsOf(ChainOf(world, key.pool), key.startBlock, through))
  {
    FoldHolds(times, LogsOf(ChainOf(world, key.pool), key.startBlock, through));
  }

  // ----- On the wire -----

  // One org's rate changes, in the order of the logs.
  function OrgRates(logs: seq<Log>, org: string): seq<Snap.RatePoint> {
    if logs == [] then []
    else
      var log := logs[|logs| - 1];
      OrgRates(logs[..|logs| - 1], org) +
      match Decode(log)
      case Some(RateTick(o, bps)) => (if o == org then [Snap.RatePoint(bps, log.blockNumber, Some(log.txHash))] else [])
      case _ => []
  }

  lemma TicksAppend(ticks: seq<Tick>, t: Tick, org: string)
    ensures Snap.TicksOf(ticks + [t], org) ==
            Snap.TicksOf(ticks, org) + if t.org == org then [Snap.RatePoint(t.rateBps, t.blockNumber, Some(t.txHash))] else []
  {
    assert (ticks + [t])[..|ticks|] == ticks;
  }

  lemma {:induction false} TicksAreRates(logs: seq<Log>, org: string)
    ensures Snap.TicksOf(RateChanges(logs), org) == OrgRates(logs, org)
  {
    if logs != [] {
      var init, log := logs[..|logs| - 1], logs[|logs| - 1];
      TicksAreRates(init, org);
      match Decode(log) {
        case Some(RateTick(o, bps)) => TicksAppend(RateChanges(init), Tick(o, bps, log.blockNumber, log.txHash), org);
        case _ => assert RateChanges(logs) == RateChanges(init);
      }
    }
  }

  // The wire form of a full scan says what the logs say: each total in decimal under its own name,
  // the open advances, the org last seen, and the base rate followed by the org's changes.
  ghost predicate Says(times: Times, w: Snap.WireHistory, key: Key, org: Option<string>, logs: seq<Log>) {
    && w.fees == Decimal(Sum(logs, Fee)) && w.bondSlashed == Decimal(Sum(logs, Bond))
    && w.reserveUsed == Decimal(Sum(logs, Reserve)) && w.socialized == Decimal(Sum(logs, Loss))
    && OpenExactly(times, w.open, logs) && w.latestOrg == LastOrg(logs)
    && w.rates == [Snap.RatePoint(5000, key.startBlock, None)]
                  + (if org.Some? then OrgRates(logs, org.value)
                     else if LastOrg(logs).Some? then OrgRates(logs, LastOrg(logs).value) else [])
  }

  lemma FormatSays(times: Times, scan: Snap.Scan, key: Key, org: Option<string>, logs: seq<Log>)
    requires Holds(times, scan.history, logs)
    ensures Says(times, Snap.FormatHistory(scan, key, org), key, org, logs)
    ensures Snap.FormatHistory(scan, key, org).scannedThrough == scan.next - 1
  {
    if org.Some? { TicksAreRates(logs, org.value); }
    if LastOrg(logs).Some? { TicksAreRates(logs, LastOrg(logs).value); }
  }

  // Over any interleaving of callers, a snapshot labelled complete tells, word by word, what all the
  // logs through the block of its figures say, and names the org of the views or else the last seen.
  lemma CompleteSnapshotTells(world: World, times: Times, states: seq<Snap.Sys>, steps: seq<Snap.Step>, k: nat, views: Snap.Views)
    requires Snap.Run(world, times, states, steps) && k < |states[|steps|].handed|
    ensures var given := states[|steps|].handed[k];
            var key, scan := given.key, given.scan;
            var snapshot := Snap.AssembleSnapshot(views, Some(Snap.FormatHistory(scan, key, views.orgAddress)), Snap.Complete);
            var logs := LogsOf(ChainOf(world, key.pool), key.startBlock, views.blockNumber);
            snapshot.status == Snap.Complete ==>
              && snapshot.views == views && snapshot.history.Some?
              && snapshot.history.value.scannedThrough == views.blockNumber
              && Says(times, snapshot.history.value, key, views.orgAddress, logs)
              && snapshot.orgAddress == (if views.orgAddress.Some? then views.orgAddress else LastOrg(logs))
  {
    Snap.CompleteIsOneObservation(world, times, states, steps, k, views);
    var given := states[|steps|].handed[k];
    var key, scan := given.key, given.scan;
    if Snap.Through(scan) == views.blockNumber {
      FullScanHolds(world, times, key, views.blockNumber, scan.history);
      FormatSays(times, scan, key, views.orgAddress, LogsOf(ChainOf(world, key.pool), key.startBlock, views.blockNumber));
    }
  }

  // And nothing less is ever labelled complete, whatever status is asked for.
  lemma CompleteOnlyWhenReached(views: Snap.Views, history: Option<Snap.WireHistory>, asked: Snap.Status)
    ensures var s := Snap.AssembleSnapshot(views, history, asked);
            && (s.status == Snap.Complete <==>
                  asked == Snap.Complete && history.Some? && history.value.scannedThrough == views.blockNumber)
            && (asked != Snap.Complete ==> s.status == asked)
            && (asked == Snap.Complete && s.status != Snap.Complete ==> s.status == Snap.PendingScan)
  {
  }
}
