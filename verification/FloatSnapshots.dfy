// Many callers over one scan cache with a single scan in flight per pool, and the snapshot that
// is labelled complete only when its history reaches the very block of its figures
// (dashboard/lib/floatChain.ts, dashboard/app/api/float/route.ts).
module FloatSnapshots {
  import opened Wrappers
  import opened FloatLogs
  import opened FloatScan
  import opened Decimals

  // A published accumulator, by value, with the first block it has not scanned: nothing writes to
  // one after it is published.
  datatype Scan = Scan(next: nat, history: History)

  function Through(scan: Scan): int {
    scan.next - 1
  }

  // A scan in flight: what it copied, the head it was started for, and who waits on it.
  datatype Flight = Flight(base: Scan, head: nat, callers: seq<nat>)

  datatype Handed = Handed(caller: nat, key: Key, scan: Scan)

  datatype Sys = Sys(cache: map<Key, Scan>, pending: map<Key, Flight>, handed: seq<Handed>)

  datatype Step =
    | Call(caller: nat, key: Key, head: nat)
    | Land(key: Key)
    | Throw(key: Key)
    | Peek(caller: nat, key: Key)

  function Base(s: Sys, key: Key): Scan {
    if key in s.cache then s.cache[key] else Scan(key.startBlock, EMPTY)
  }

  // What a flight publishes, if its logs decode.
  function Extension(world: World, times: Times, key: Key, f: Flight): Option<Scan> {
    if f.head < f.base.next then Some(f.base)
    else
      match FoldLogs(times, f.base.history, LogsOf(ChainOf(world, key.pool), f.base.next, f.head))
      case Some(h) => Some(Scan(f.head + 1, h))
      case None => None
  }

  predicate Enabled(world: World, times: Times, s: Sys, t: Step) {
    match t
    case Call(_, _, _) => true
    case Land(key) => key in s.pending && Extension(world, times, key, s.pending[key]).Some?
    case Throw(key) => key in s.pending
    case Peek(_, key) => key in s.cache
  }

  // Every waiter is handed the same scan, whatever head it asked for.
  function HandAll(callers: seq<nat>, key: Key, scan: Scan): seq<Handed> {
    seq(|callers|, k requires 0 <= k < |callers| => Handed(callers[k], key, scan))
  }

  function Do(world: World, times: Times, s: Sys, t: Step): Sys
    requires Enabled(world, times, s, t)
  {
    match t
    case Call(caller, key, head) =>
      if key in s.pending then
        var f := s.pending[key];
        s.(pending := s.pending[key := f.(callers := f.callers + [caller])])
      else s.(pending := s.pending[key := Flight(Base(s, key), head, [caller])])
    case Land(key) =>
      var scan := Extension(world, times, key, s.pending[key]).value;
      s.(cache := s.cache[key := scan], pending := s.pending - {key},
         handed := s.handed + HandAll(s.pending[key].callers, key, scan))
    case Throw(key) => s.(pending := s.pending - {key})
    case Peek(caller, key) => s.(handed := s.handed + [Handed(caller, key, s.cache[key])])
  }

  ghost predicate Run(world: World, times: Times, states: seq<Sys>, steps: seq<Step>) {
    && |states| == |steps| + 1
    && states[0] == Sys(map[], map[], [])
    && forall k :: 0 <= k < |steps| ==>
         Enabled(world, times, states[k], steps[k]) && states[k + 1] == Do(world, times, states[k], steps[k])
  }

  // ----- Incremental equals full -----

  // One full scan from the start block.
  predicate Full(world: World, times: Times, key: Key, scan: Scan) {
    key.startBlock <= scan.next && FullScan(world, times, key, scan.next - 1) == Some(scan.history)
  }

  // A flight still holds what the cache holds.
  ghost predicate Inv(world: World, times: Times, s: Sys) {
    && (forall key :: key in s.cache ==> Full(world, times, key, s.cache[key]))
    && (forall key :: key in s.pending ==> s.pending[key].base == Base(s, key))
    && (forall k :: 0 <= k < |s.handed| ==> Full(world, times, s.handed[k].key, s.handed[k].scan))
  }

  lemma BaseIsFull(world: World, times: Times, s: Sys, key: Key)
    requires key in s.cache ==> Full(world, times, key, s.cache[key])
    ensures Full(world, times, key, Base(s, key))
  {
  }

  lemma ExtensionIsFull(world: World, times: Times, key: Key, f: Flight)
    requires Full(world, times, key, f.base) && Extension(world, times, key, f).Some?
    ensures Full(world, times, key, Extension(world, times, key, f).value)
    ensures f.base.next <= Extension(world, times, key, f).value.next
  {
    if f.base.next <= f.head {
      Extend(world, times, key, f.base.next - 1, f.head, f.base.history);
    }
  }

  lemma StepKeeps(world: World, times: Times, s: Sys, t: Step)
    requires Inv(world, times, s) && Enabled(world, times, s, t)
    ensures Inv(world, times, Do(world, times, s, t))
  {
    if t.Land? {
      var f := s.pending[t.key];
      BaseIsFull(world, times, s, t.key);
      ExtensionIsFull(world, times, t.key, f);
    }
  }

  // Over any interleaving of calls, landings, throws and peeks, with any heads in any order: what
  // the cache holds and what any caller was handed is one fold of every log from the start block
  // through its cursor.
  lemma {:induction false} IncrementalIsFull(world: World, times: Times, states: seq<Sys>, steps: seq<Step>)
    requires Run(world, times, states, steps)
    ensures Inv(world, times, states[|steps|])
  {
    if steps != [] {
      var n := |steps| - 1;
      IncrementalIsFull(world, times, states[..n + 1], steps[..n]);
      assert states[..n + 1][n] == states[n];
      StepKeeps(world, times, states[n], steps[n]);
    }
  }

  // What one step moves: a pool's cursor forward, and its cache only where its scan lands.
  ghost predicate Moves(s: Sys, s': Sys, t: Step, key: Key) {
    && Base(s, key).next <= Base(s', key).next
    && (t != Land(key) ==> Base(s', key) == Base(s, key))
    && s.handed <= s'.handed
    && (t.Throw? ==> s'.handed == s.handed)
  }

  lemma StepMoves(world: World, times: Times, s: Sys, t: Step, key: Key)
    requires Inv(world, times, s) && Enabled(world, times, s, t)
    ensures Moves(s, Do(world, times, s, t), t, key)
  {
    if t.Land? {
      BaseIsFull(world, times, s, t.key);
      ExtensionIsFull(world, times, t.key, s.pending[t.key]);
    }
  }

  // The cursor never goes back, so no block is merged twice, and what was handed out stays handed
  // out. Only a landing scan moves a pool's cache: whatever else happens, any number of scans that
  // throw included, the next caller is extended from the very accumulator it would have been.
  lemma {:induction false} CursorOnlyAdvances(world: World, times: Times, states: seq<Sys>, steps: seq<Step>, j: nat, key: Key)
    requires Run(world, times, states, steps) && j <= |steps|
    ensures Base(states[j], key).next <= Base(states[|steps|], key).next
    ensures states[j].handed <= states[|steps|].handed
    ensures Land(key) !in steps[j..] ==> Base(states[|steps|], key) == Base(states[j], key)
    ensures (forall t :: t in steps[j..] ==> t.Throw?) ==> states[|steps|].handed == states[j].handed
  {
    if j < |steps| {
      var n := |steps| - 1;
      CursorOnlyAdvances(world, times, states[..n + 1], steps[..n], j, key);
      IncrementalIsFull(world, times, states[..n + 1], steps[..n]);
      assert states[..n + 1][n] == states[n] && states[..n + 1][j] == states[j];
      assert steps[j..] == steps[..n][j..] + [steps[n]];
      StepMoves(world, times, states[n], steps[n], key);
    }
  }

  // ----- The snapshot -----

  datatype Views = Views(blockNumber: nat, orgAddress: Option<string>, totalAssets: nat, totalOutstanding: nat, reserve: nat)

  datatype RatePoint = RatePoint(rateBps: nat, blockNumber: nat, txHash: Option<string>)

  // History as it travels, with the block it was scanned through.
  datatype WireHistory = WireHistory(
    fees: string,
    open: map<string, Advance>,
    bondSlashed: string,
    reserveUsed: string,
    socialized: string,
    rates: seq<RatePoint>,
    latestOrg: Option<string>,
    scannedThrough: int)

  datatype Status = Complete | PendingScan | Unavailable

  datatype Snapshot = Snapshot(views: Views, history: Option<WireHistory>, orgAddress: Option<string>, status: Status)

  const BASE_RATE_BPS: nat := 5000

  function TicksOf(ticks: seq<Tick>, org: string): seq<RatePoint> {
    if ticks == [] then []
    else
      var t := ticks[|ticks| - 1];
      TicksOf(ticks[..|ticks| - 1], org)
      + if t.org == org then [RatePoint(t.rateBps, t.blockNumber, Some(t.txHash))] else []
  }

  function FirstOf(a: Option<string>, b: Option<string>): Option<string> {
    if a.Some? then a else b
  }

  function RateHistory(h: History, startBlock: nat, org: Option<string>): seq<RatePoint> {
    [RatePoint(BASE_RATE_BPS, startBlock, None)] + match org case Some(o) => TicksOf(h.ticks, o) case None => []
  }

  function FormatHistory(scan: Scan, key: Key, org: Option<string>): WireHistory {
    var h := scan.history;
    WireHistory(Decimal(h.fees), h.open, Decimal(h.bondSlashed), Decimal(h.reserveUsed), Decimal(h.socialized),
                RateHistory(h, key.startBlock, FirstOf(org, h.latestOrg)), h.latestOrg, Through(scan))
  }

  // A caller may ask for complete; it is granted only at equality of the two blocks.
  function AssembleSnapshot(views: Views, history: Option<WireHistory>, asked: Status): Snapshot {
    var observed := match history case Some(h) => h.latestOrg case None => None;
    var reaches := history.Some? && history.value.scannedThrough == views.blockNumber;
    Snapshot(views, history, FirstOf(views.orgAddress, observed),
             if asked.Complete? && !reaches then PendingScan else asked)
  }

  // A snapshot labelled complete is one observation: its history is exactly the fold of all logs
  // through the block of its figures, whichever caller's scan it was handed; and a scan that
  // reached that block is labelled complete when asked.
  lemma CompleteIsOneObservation(world: World, times: Times, states: seq<Sys>, steps: seq<Step>, k: nat, views: Views)
    requires Run(world, times, states, steps) && k < |states[|steps|].handed|
    ensures var Handed(_, key, scan) := states[|steps|].handed[k];
            var snapshot := AssembleSnapshot(views, Some(FormatHistory(scan, key, views.orgAddress)), Complete);
            && (snapshot.status == Complete <==> Through(scan) == views.blockNumber)
            && (snapshot.status == Complete ==>
                  && FullScan(world, times, key, views.blockNumber) == Some(scan.history)
                  && snapshot.history == Some(FormatHistory(Scan(views.blockNumber + 1, scan.history), key, views.orgAddress)))
  {
    IncrementalIsFull(world, times, states, steps);
    assert Full(world, times, states[|steps|].handed[k].key, states[|steps|].handed[k].scan);
  }
}
