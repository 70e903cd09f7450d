// The incremental log scan (dashboard/lib/floatChain.ts): adaptive windows over a block range, the
// fold into an accumulator, and the cache of accumulators, extended by copy.
module FloatScan {
  import opened Wrappers
  import opened Ordering
  import opened FloatLogs

  // ----- The chain -----

  // The logs of each block, final once included.
  type Chain = nat -> seq<Log>

  predicate BlockOk(logs: seq<Log>, b: nat) {
    && (forall k :: 0 <= k < |logs| ==> logs[k].blockNumber == b)
    && (forall j, k :: 0 <= j < k < |logs| ==> logs[j].logIndex < logs[k].logIndex)
  }

  ghost predicate WellFormed(chain: Chain) {
    forall b :: BlockOk(chain(b), b)
  }

  function LogsOf(chain: Chain, from: nat, until: int): seq<Log>
    decreases until - from + 1
  {
    if until < from then [] else LogsOf(chain, from, until - 1) + chain(until)
  }

  lemma {:induction false} LogsSplit(chain: Chain, a: nat, b: int, c: int)
    requires a - 1 <= b <= c
    ensures LogsOf(chain, a, c) == LogsOf(chain, a, b) + LogsOf(chain, b + 1, c)
    decreases c - b
  {
    if b < c {
      LogsSplit(chain, a, b, c - 1);
    }
  }

  lemma {:induction false} LogsRanked(chain: Chain, from: nat, until: int)
    requires WellFormed(chain)
    ensures forall k :: 0 <= k < |LogsOf(chain, from, until)| ==> from <= LogsOf(chain, from, until)[k].blockNumber <= until
    ensures Sorted(LogsOf(chain, from, until), LogLe)
    ensures forall j, k :: 0 <= j < k < |LogsOf(chain, from, until)| ==>
              !LogLe(LogsOf(chain, from, until)[k], LogsOf(chain, from, until)[j])
    decreases until - from + 1
  {
    if from <= until {
      LogsRanked(chain, from, until - 1);
      assert BlockOk(chain(until), until);
    }
  }

  // However a provider orders the logs of a range, sorting them restores the chain's order.
  lemma SortedIsChainOrder(chain: Chain, from: nat, until: int, logs: seq<Log>)
    requires WellFormed(chain) && Collected(chain, from, until + 1, logs)
    ensures Sort(logs, LogLe) == LogsOf(chain, from, until)
  {
    var all := LogsOf(chain, from, until);
    LogsRanked(chain, from, until);
    LogOrder();
    SortKeeps(logs, LogLe);
    assert Strict(all, LogLe);
    SortedUnique(all, Sort(logs, LogLe), LogLe);
  }

  // ----- The window scan -----

  datatype Answer = Delivered | RangeError | OtherError

  type Windows = seq<(int, int)>

  // The windows follow one another from `from` and stop just before `next`.
  predicate Tile(ws: Windows, from: int, next: int) {
    if ws == [] then next == from
    else
      var (a, b) := ws[|ws| - 1];
      a <= b && next == b + 1 && Tile(ws[..|ws| - 1], from, a)
  }

  // The logs of the blocks before `next`, in some order.
  ghost predicate Collected(chain: Chain, from: nat, next: int, logs: seq<Log>) {
    multiset(logs) == multiset(LogsOf(chain, from, next - 1))
  }

  // What a provider may deliver for a window: its logs, in any order.
  ghost predicate Provides(chain: Chain, deliver: (nat, nat) -> seq<Log>) {
    forall a: nat, b: nat :: Collected(chain, a, b + 1, deliver(a, b))
  }

  // What the windows delivered, end to end.
  function Gathered(ws: Windows, deliver: (nat, nat) -> seq<Log>): seq<Log>
    requires forall k :: 0 <= k < |ws| ==> ws[k].0 >= 0 && ws[k].1 >= 0
  {
    if ws == [] then [] else Gathered(ws[..|ws| - 1], deliver) + deliver(ws[|ws| - 1].0, ws[|ws| - 1].1)
  }

  lemma JoinRanges(chain: Chain, from: nat, a: nat, next: int, logs: seq<Log>, piece: seq<Log>)
    requires from <= a < next && Collected(chain, from, a, logs) && Collected(chain, a, next, piece)
    ensures Collected(chain, from, next, logs + piece)
  {
    LogsSplit(chain, from, a - 1, next - 1);
  }

  // Windows that tile a range gather exactly its logs.
  lemma {:induction false} TilesGather(chain: Chain, ws: Windows, deliver: (nat, nat) -> seq<Log>, from: nat, next: int)
    requires Provides(chain, deliver) && Tile(ws, from, next)
    requires forall k :: 0 <= k < |ws| ==> ws[k].0 >= 0 && ws[k].1 >= 0
    ensures next >= from && Collected(chain, from, next, Gathered(ws, deliver))
  {
    if ws != [] {
      var (a, b) := ws[|ws| - 1];
      TilesGather(chain, ws[..|ws| - 1], deliver, from, a);
      JoinRanges(chain, from, a, next, Gathered(ws[..|ws| - 1], deliver), deliver(a, b));
    }
  }

  // Each window is well placed and no wider than `width`.
  predicate Spans(ws: Windows, width: int) {
    forall k :: 0 <= k < |ws| ==> 0 <= ws[k].0 <= ws[k].1 < ws[k].0 + width
  }

  lemma NextTile(ws: Windows, deliver: (nat, nat) -> seq<Log>, from: nat, a: nat, b: int, width: int)
    requires Tile(ws, from, a) && Spans(ws, width) && a <= b < a + width
    ensures var more := ws + [(a, b)];
            Tile(more, from, b + 1) && Spans(more, width) && Gathered(more, deliver) == Gathered(ws, deliver) + deliver(a, b)
  {
    assert (ws + [(a, b)])[..|ws|] == ws;
  }

  function FirstWindow(chunk: int): (w: int)
    ensures w >= 1 && w >= chunk && (w == 1 || w == chunk)
  {
    if chunk > 1 then chunk else 1
  }

  // The windows a finished scan was answered for: they tile the range, none is wider than the
  // first, and nothing but what they delivered comes out.
  predicate ScannedBy(ws: Windows, from: nat, until: int, chunk: int, deliver: (nat, nat) -> seq<Log>, logs: seq<Log>) {
    && Spans(ws, FirstWindow(chunk))
    && logs == Gathered(ws, deliver)
    && if until < from then ws == [] else Tile(ws, from, until + 1)
  }

  // Halving the window on each range error and keeping it, whatever the pattern of errors: it
  // ends, and if it returns, it has scanned the range.
  method ScanLogs(from: nat, until: int, chunk: int, answer: nat -> Answer, deliver: (nat, nat) -> seq<Log>)
    returns (out: Option<seq<Log>>)
    ensures out.Some? ==> exists ws :: ScannedBy(ws, from, until, chunk, deliver, out.value)
    ensures out.None? ==> exists k :: answer(k) != Delivered
  {
    ghost var windows: Windows := [];
    if until < from {
      assert ScannedBy(windows, from, until, chunk, deliver, []);
      return Some([]);
    }
    var logs: seq<Log> := [];
    var cursor: nat := from;
    var window := FirstWindow(chunk);
    var request := 0;
    while cursor <= until
      invariant from <= cursor <= until + 1 && 1 <= window <= FirstWindow(chunk)
      invariant Tile(windows, from, cursor) && Spans(windows, FirstWindow(chunk))
      invariant logs == Gathered(windows, deliver)
      decreases until - cursor + 1, window
    {
      var end := if cursor + window - 1 < until then cursor + window - 1 else until;
      var result := answer(request);
      request := request + 1;
      if result == Delivered {
        NextTile(windows, deliver, from, cursor, end, FirstWindow(chunk));
        logs := logs + deliver(cursor, end);
        windows := windows + [(cursor, end)];
        cursor := end + 1;
      } else if result == RangeError && window > 1 {
        window := if window / 2 > 0 then window / 2 else 1;
      } else {
        return None;
      }
    }
    assert ScannedBy(windows, from, until, chunk, deliver, logs);
    return Some(logs);
  }

  lemma SortedScan(chain: Chain, ws: Windows, deliver: (nat, nat) -> seq<Log>, from: nat, until: int)
    requires WellFormed(chain) && Provides(chain, deliver)
    requires forall k :: 0 <= k < |ws| ==> ws[k].0 >= 0 && ws[k].1 >= 0
    requires if until < from then ws == [] else Tile(ws, from, until + 1)
    ensures Sort(Gathered(ws, deliver), LogLe) == LogsOf(chain, from, until)
  {
    if from <= until {
      TilesGather(chain, ws, deliver, from, until + 1);
      SortedIsChainOrder(chain, from, until, Gathered(ws, deliver));
    }
  }

  // The logs of a range in the chain's order, or nothing where the provider fails.
  method Fetch(chain: Chain, from: nat, until: int, chunk: int, answer: nat -> Answer, deliver: (nat, nat) -> seq<Log>)
    returns (logs: Option<seq<Log>>)
    requires WellFormed(chain) && Provides(chain, deliver)
    ensures logs.Some? ==> logs.value == LogsOf(chain, from, until)
  {
    logs := ScanLogs(from, until, chunk, answer, deliver);
    if logs.Some? {
      ghost var windows :| ScannedBy(windows, from, until, chunk, deliver, logs.value);
      SortedScan(chain, windows, deliver, from, until);
      logs := Some(Sort(logs.value, LogLe));
    }
  }

  // ----- The accumulator -----

  class OpenAdvance {
    const job: string
    const org: string
    const principal: nat
    const fee: nat
    const rateBps: nat
    const txHash: string
    var openedAt: Option<nat>

    constructor (a: Advance)
      ensures Value() == a
    {
      job, org, principal, fee, rateBps, txHash := a.job, a.org, a.principal, a.fee, a.rateBps, a.txHash;
      openedAt := a.openedAt;
    }

    function Value(): Advance
      reads this
    {
      Advance(job, org, principal, fee, rateBps, openedAt, txHash)
    }
  }

  function Advances(open: map<string, OpenAdvance>): map<string, Advance>
    reads open.Values
  {
    map j | j in open :: open[j].Value()
  }

  lemma AdvancesPut(open: map<string, OpenAdvance>, job: string, a: OpenAdvance)
    ensures Advances(open[job := a]) == Advances(open)[job := a.Value()]
  {
  }

  lemma AdvancesDrop(open: map<string, OpenAdvance>, job: string)
    ensures Advances(open - {job}) == Advances(open) - {job}
  {
  }

  lemma AdvancesAre(open: map<string, OpenAdvance>, was: map<string, Advance>)
    requires open.Keys == was.Keys && forall j :: j in open ==> open[j].Value() == was[j]
    ensures Advances(open) == was
  {
  }

  lemma StampedAdvances(times: Times, open: map<string, OpenAdvance>, was: map<string, Advance>, newly: Opened)
    requires open.Keys == was.Keys
    requires forall j :: j in open ==> open[j].Value() == StampedAdvance(times, newly, j, was[j])
    ensures Advances(open) == StampedOpen(times, was, newly)
  {
  }

  class ScanState {
    var scannedThroughBlock: int
    var fees: nat
    var bondSlashed: nat
    var reserveUsed: nat
    var socialized: nat
    var open: map<string, OpenAdvance>
    var ticks: seq<Tick>
    var latestOrg: Option<string>

    // No two jobs share an advance object.
    ghost predicate Valid()
      reads this
    {
      forall j, k :: j in open && k in open && open[j] == open[k] ==> j == k
    }

    function Value(): History
      reads this, open.Values
    {
      History(fees, bondSlashed, reserveUsed, socialized, Advances(open), ticks, latestOrg)
    }

    constructor (through: int)
      ensures Valid() && scannedThroughBlock == through && Value() == EMPTY
      ensures open == map[]
    {
      scannedThroughBlock := through;
      fees, bondSlashed, reserveUsed, socialized := 0, 0, 0, 0;
      open, ticks, latestOrg := map[], [], None;
    }

    constructor Of(through: int, fees: nat, bondSlashed: nat, reserveUsed: nat, socialized: nat,
                   open: map<string, OpenAdvance>, ticks: seq<Tick>, latestOrg: Option<string>)
      ensures scannedThroughBlock == through && this.open == open
      ensures Value() == History(fees, bondSlashed, reserveUsed, socialized, old(Advances(open)), ticks, latestOrg)
    {
      scannedThroughBlock := through;
      this.fees, this.bondSlashed, this.reserveUsed, this.socialized := fees, bondSlashed, reserveUsed, socialized;
      this.open, this.ticks, this.latestOrg := open, ticks, latestOrg;
    }

    method Close(job: string)
      requires Valid()
      modifies this`open
      ensures Valid() && open == old(open) - {job} && Advances(open) == old(Advances(open)) - {job}
    {
      AdvancesDrop(open, job);
      open := open - {job};
    }

    method Open(a: Advance)
      requires Valid()
      modifies this`open
      ensures Valid() && Advances(open) == old(Advances(open))[a.job := a]
      ensures forall x :: x in open.Values ==> x in old(open.Values) || fresh(x)
    {
      var advance := new OpenAdvance(a);
      AdvancesPut(open, a.job, advance);
      open := open[a.job := advance];
    }

    method RecordIssue(log: Log, c: Change)
      requires Valid() && c.Issue?
      modifies this`open, this`latestOrg
      ensures Valid() && Value() == Changed(old(Value()), log, c, None)
      ensures forall a :: a in open.Values ==> a in old(open.Values) || fresh(a)
    {
      latestOrg := Some(c.org);
      Open(Advance(c.job, c.org, c.principal, c.fee, c.rateBps, None, log.txHash));
    }

    method RecordEnd(log: Log, c: Change)
      requires Valid() && (c.Repay? || c.WriteOff?)
      modifies this`open, this`fees, this`bondSlashed, this`reserveUsed, this`socialized
      ensures Valid() && Value() == Changed(old(Value()), log, c, None)
      ensures forall a :: a in open.Values ==> a in old(open.Values)
    {
      match c {
        case Repay(job, fee) =>
          fees := fees + fee;
          Close(job);
        case WriteOff(job, bond, reserve, loss) =>
          bondSlashed := bondSlashed + bond;
          reserveUsed := reserveUsed + reserve;
          socialized := socialized + loss;
          Close(job);
      }
    }

    // One decoded log. It never writes to an advance already there.
    method Record(log: Log, c: Change)
      requires Valid()
      modifies this
      ensures Valid() && scannedThroughBlock == old(scannedThroughBlock)
      ensures Value() == Changed(old(Value()), log, c, None)
      ensures forall a :: a in open.Values ==> a in old(open.Values) || fresh(a)
    {
      match c {
        case RateTick(org, bps) => ticks := ticks + [Tick(org, bps, log.blockNumber, log.txHash)];
        case Issue(_, _, _, _, _) => RecordIssue(log, c);
        case Nothing =>
        case _ => RecordEnd(log, c);
      }
    }

    method MergeLog(log: Log, newly: Opened) returns (ok: bool, more: Opened)
      requires Valid()
      modifies this
      ensures Valid() && scannedThroughBlock == old(scannedThroughBlock)
      ensures ok <==> Merge(old(Value()), newly, log).Some?
      ensures ok ==> Merge(old(Value()), newly, log) == Some((Value(), more))
      ensures forall a :: a in open.Values ==> a in old(open.Values) || fresh(a)
    {
      var c := Decode(log);
      if c.None? {
        return false, newly;
      }
      Record(log, c.value);
      return true, if c.value.Issue? then newly[c.value.job := log.blockNumber] else newly;
    }

    method MergeLogs(logs: seq<Log>) returns (ok: bool, newly: Opened)
      requires Valid()
      modifies this
      ensures Valid() && scannedThroughBlock == old(scannedThroughBlock)
      ensures ok <==> MergeAll(old(Value()), logs).Some?
      ensures ok ==> MergeAll(old(Value()), logs) == Some((Value(), newly))
      ensures forall a :: a in open.Values ==> a in old(open.Values) || fresh(a)
    {
      newly := map[];
      for i := 0 to |logs|
        invariant Valid() && scannedThroughBlock == old(scannedThroughBlock)
        invariant MergeAll(old(Value()), logs[..i]) == Some((Value(), newly))
        invariant forall a :: a in open.Values ==> a in old(open.Values) || fresh(a)
      {
        assert logs[..i + 1][..i] == logs[..i];
        ok, newly := MergeLog(logs[i], newly);
        if !ok {
          MergeStops(old(Value()), logs, i + 1);
          return false, newly;
        }
      }
      assert logs[..|logs|] == logs;
      return true, newly;
    }

    // Stamp what this extension opened. A failed block fetch throws.
    method EnrichOpenedAt(newly: Opened, times: Times, fails: string -> bool) returns (ok: bool)
      requires Valid()
      modifies open.Values
      ensures Valid()
      ensures ok ==> Value() == Stamped(times, old(Value()), newly)
    {
      ghost var was := Advances(open);
      var rest := newly.Keys;
      while rest != {}
        invariant rest <= newly.Keys
        invariant forall j :: j in open ==>
                    open[j].Value() == if j in rest then was[j] else StampedAdvance(times, newly, j, was[j])
        decreases |rest|
      {
        var j :| j in rest;
        rest := rest - {j};
        if j !in open || open[j].openedAt.Some? {
          continue;
        }
        if fails(j) {
          return false;
        }
        open[j].openedAt := Some(times(newly[j]));
      }
      StampedAdvances(times, open, was, newly);
      return true;
    }

    // Merge a batch, stamp what it opened, and move the cursor: the batch, folded.
    method Absorb(logs: seq<Log>, times: Times, fails: string -> bool, head: int, ghost goal: Option<History>)
      returns (ok: bool)
      requires Valid() && AllStamped(Value()) && goal == FoldLogs(times, Value(), logs)
      modifies this, open.Values
      ensures Valid()
      ensures ok ==> goal == Some(Value()) && scannedThroughBlock == head
      ensures forall a :: a in open.Values ==> a in old(open.Values) || fresh(a)
    {
      MergeIsFold(times, Value(), logs);
      var newly;
      ok, newly := MergeLogs(logs);
      if ok {
        ok := EnrichOpenedAt(newly, times, fails);
      }
      if ok {
        MoveCursor(head);
      }
    }

    // Fetch what lies between the cursor and a later head, and absorb it.
    method Pull(chain: Chain, head: nat, chunk: int, times: Times, answer: nat -> Answer,
                deliver: (nat, nat) -> seq<Log>, fails: string -> bool, ghost goal: Option<History>)
      returns (ok: bool)
      requires Valid() && AllStamped(Value()) && -1 <= scannedThroughBlock < head
      requires goal == FoldLogs(times, Value(), LogsOf(chain, scannedThroughBlock + 1, head))
      requires WellFormed(chain) && Provides(chain, deliver)
      modifies this, open.Values
      ensures Valid()
      ensures ok ==> goal == Some(Value()) && scannedThroughBlock == head
      ensures forall a :: a in open.Values ==> a in old(open.Values) || fresh(a)
    {
      var logs := Fetch(chain, scannedThroughBlock + 1, head, chunk, answer, deliver);
      if logs.None? {
        return false;
      }
      ok := Absorb(logs.value, times, fails, head, goal);
    }

    method MoveCursor(head: int)
      modifies this`scannedThroughBlock
      ensures scannedThroughBlock == head && Value() == old(Value())
    {
      scannedThroughBlock := head;
    }

    method CopyOpen() returns (copy: map<string, OpenAdvance>)
      requires Valid()
      ensures Advances(copy) == Advances(open)
      ensures forall a :: a in copy.Values ==> fresh(a)
      ensures forall j, k :: j in copy && k in copy && copy[j] == copy[k] ==> j == k
    {
      ghost var was := Advances(open);
      copy := map[];
      var rest := open.Keys;
      while rest != {}
        invariant rest <= open.Keys && copy.Keys == open.Keys - rest
        invariant forall j :: j in copy ==> fresh(copy[j]) && copy[j].Value() == was[j]
        invariant forall j, k :: j in copy && k in copy && copy[j] == copy[k] ==> j == k
        decreases |rest|
      {
        var j :| j in rest;
        rest := rest - {j};
        var advance := new OpenAdvance(open[j].Value());
        copy := copy[j := advance];
      }
      AdvancesAre(copy, was);
    }

    // A copy deep enough that nothing written to it reaches the original.
    method Clone() returns (copy: ScanState)
      requires Valid()
      ensures fresh(copy) && copy.Valid() && copy.Value() == Value()
      ensures copy.scannedThroughBlock == scannedThroughBlock
      ensures forall a :: a in copy.open.Values ==> fresh(a)
    {
      var advances := CopyOpen();
      copy := new ScanState.Of(scannedThroughBlock, fees, bondSlashed, reserveUsed, socialized, advances, ticks, latestOrg);
    }
  }

  lemma {:induction false} MergeStops(h: History, logs: seq<Log>, k: nat)
    requires k <= |logs| && MergeAll(h, logs[..k]).None?
    ensures MergeAll(h, logs).None?
    decreases |logs| - k
  {
    if k < |logs| {
      assert logs[..k + 1][..k] == logs[..k];
      MergeStops(h, logs, k + 1);
    } else {
      assert logs[..k] == logs;
    }
  }

  // ----- The cache -----

  datatype Key = Key(pool: string, startBlock: nat)

  // The chain as each pool's logs are found on it.
  type World = string -> Chain

  function ChainOf(world: World, pool: string): Chain {
    world(pool)
  }

  // What one fold over everything from the start block through `through` gives.
  function FullScan(world: World, times: Times, key: Key, through: int): Option<History> {
    FoldLogs(times, EMPTY, LogsOf(ChainOf(world, key.pool), key.startBlock, through))
  }

  class Scanner {
    var cache: map<Key, ScanState>

    constructor ()
      ensures cache == map[]
    {
      cache := map[];
    }

    // Every cached accumulator is one full scan through its cursor.
    ghost predicate Valid(world: World, times: Times)
      reads this, cache.Values, set k, j | k in cache && j in cache[k].open :: cache[k].open[j]
    {
      forall k :: k in cache ==> Current(world, times, k, cache[k])
    }

    // A copy of the cached accumulator, or an empty one.
    method Begin(key: Key, world: World, times: Times) returns (state: ScanState)
      requires Valid(world, times)
      ensures fresh(state) && Current(world, times, key, state)
      ensures forall a :: a in state.open.Values ==> fresh(a)
      ensures state.scannedThroughBlock == if key in cache then cache[key].scannedThroughBlock else key.startBlock - 1
    {
      if key in cache {
        assert Current(world, times, key, cache[key]);
        state := cache[key].Clone();
      } else {
        state := new ScanState(key.startBlock - 1);
      }
    }

    // Extend a copy to `head` and publish it whole. A throw anywhere leaves the cache as it was,
    // and no object the cache ever held is written to.
    method ScanFloatHistory(key: Key, head: nat, chunk: int, world: World, times: Times, answer: nat -> Answer,
                            deliver: (nat, nat) -> seq<Log>, fails: string -> bool)
      returns (r: Option<ScanState>)
      requires Valid(world, times) && WellFormed(ChainOf(world, key.pool)) && Provides(ChainOf(world, key.pool), deliver)
      modifies this`cache
      ensures r.None? ==> cache == old(cache)
      ensures r.Some? ==> fresh(r.value) && cache == old(cache)[key := r.value] && Current(world, times, key, r.value)
      ensures r.Some? ==>
                var before := if key in old(cache) then old(cache[key].scannedThroughBlock) else key.startBlock - 1;
                r.value.scannedThroughBlock == if head > before then head else before
      ensures Valid(world, times)
    {
      var state := Begin(key, world, times);
      if head >= state.scannedThroughBlock + 1 {
        var ok := ExtendState(state, key, head, chunk, world, times, answer, deliver, fails);
        if !ok {
          return None;
        }
      }
      Publish(key, state, world, times);
      return Some(state);
    }

    method Publish(key: Key, state: ScanState, world: World, times: Times)
      requires Valid(world, times) && Current(world, times, key, state)
      modifies this`cache
      ensures cache == old(cache)[key := state] && Valid(world, times) && Current(world, times, key, state)
    {
      cache := cache[key := state];
    }
  }

  // An accumulator that is one full scan through its cursor.
  ghost predicate Current(world: World, times: Times, key: Key, state: ScanState)
    reads state, state.open.Values
  {
    && state.Valid()
    && key.startBlock - 1 <= state.scannedThroughBlock
    && FullScan(world, times, key, state.scannedThroughBlock) == Some(state.Value())
  }

  // The body of one run: scan, sort, merge, stamp, and only then move the cursor.
  method ExtendState(state: ScanState, key: Key, head: nat, chunk: int, world: World, times: Times,
                     answer: nat -> Answer, deliver: (nat, nat) -> seq<Log>, fails: string -> bool)
    returns (ok: bool)
    requires Current(world, times, key, state) && head > state.scannedThroughBlock
    requires WellFormed(ChainOf(world, key.pool)) && Provides(ChainOf(world, key.pool), deliver)
    modifies state, state.open.Values
    ensures ok ==> Current(world, times, key, state) && state.scannedThroughBlock == head
    ensures forall a :: a in state.open.Values ==> a in old(state.open.Values) || fresh(a)
  {
    Extend(world, times, key, state.scannedThroughBlock, head, state.Value());
    ok := state.Pull(ChainOf(world, key.pool), head, chunk, times, answer, deliver, fails, FullScan(world, times, key, head));
  }

  // Extending a full scan by the logs after it is the full scan through the later block.
  lemma Extend(world: World, times: Times, key: Key, through: int, head: nat, was: History)
    requires key.startBlock - 1 <= through <= head
    requires FullScan(world, times, key, through) == Some(was)
    ensures FullScan(world, times, key, head)
            == FoldLogs(times, was, LogsOf(ChainOf(world, key.pool), through + 1, head))
    ensures AllStamped(was)
  {
    var chain := ChainOf(world, key.pool);
    LogsSplit(chain, key.startBlock, through, head);
    FoldSplit(times, EMPTY, LogsOf(chain, key.startBlock, through), LogsOf(chain, through + 1, head));
    FoldStamps(times, EMPTY, LogsOf(chain, key.startBlock, through));
  }
}
