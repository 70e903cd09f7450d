// FloatPool event logs (dashboard/lib/floatChain.ts): decoding one, the order of many, and what
// one does to the accumulated history.
module FloatLogs {
  import opened Wrappers
  import opened Letters
  import opened Ordering

  datatype Log = Log(blockNumber: nat, logIndex: nat, topics: seq<string>, data: string, txHash: string)

  const ISSUED: string := "0x4e00" + "0615bb000c437ff360e4f54ea1722dc46e202857ff124e0668f955301da7"
  const REPAID: string := "0xb1a1" + "54c78bda0dfbf33f2c572b5d8ce519a400aa92b38315e90daa26e44f1b4c"
  const WRITTEN_OFF: string := "0x6a64" + "28d29409279a788a4399a8204370bd90228631e24511ba87073e9f65a48f"
  const RATE_CHANGED: string := "0xec73" + "9c9af710a6df2b3e3656f38b5d59af57d3022cd5a88ca4516db96a4ca5c7"
  const MAX_SAFE_INTEGER: nat := 9007199254740991

  // ----- Words of log data -----

  predicate AllHex(t: string) {
    forall k :: 0 <= k < |t| ==> HexValue(t[k]).Some?
  }

  function HexNumber(t: string): nat
    requires AllHex(t)
  {
    if t == "" then 0 else 16 * HexNumber(t[..|t| - 1]) + HexValue(t[|t| - 1]).value
  }

  predicate Prefixed(t: string) {
    |t| >= 2 && t[0] == '0' && t[1] == 'x'
  }

  // The numbers written in consecutive groups of `width` digits.
  function Chunks(t: string, width: nat): seq<nat>
    requires width > 0 && AllHex(t)
    decreases |t|
  {
    if |t| < width then [] else [HexNumber(t[..width])] + Chunks(t[width..], width)
  }

  // The words of log data, if it is well formed and has enough of them.
  function Words(data: string, minimum: nat): Option<seq<nat>> {
    if !Prefixed(data) || |data| == 2 || !AllHex(data[2..]) || |data[2..]| % 64 != 0 then None
    else if |Chunks(data[2..], 64)| < minimum then None
    else Some(Chunks(data[2..], 64))
  }

  function Power16(k: nat): nat {
    if k == 0 then 1 else 16 * Power16(k - 1)
  }

  // The value in `width` hex digits, padded with zeros in front.
  function Padded(n: nat, width: nat): (t: string)
    ensures |t| == width && AllHex(t)
  {
    if width == 0 then "" else Padded(n / 16, width - 1) + [HexDigit(n % 16)]
  }

  lemma {:induction false} PaddedValue(n: nat, width: nat)
    requires n < Power16(width)
    ensures HexNumber(Padded(n, width)) == n
  {
    if width > 0 {
      PaddedValue(n / 16, width - 1);
      var t := Padded(n / 16, width - 1);
      assert (t + [HexDigit(n % 16)])[..|t|] == t;
    }
  }

  function WordsText(vs: seq<nat>, width: nat): (t: string)
    ensures |t| == width * |vs| && AllHex(t)
  {
    if vs == [] then "" else Padded(vs[0], width) + WordsText(vs[1..], width)
  }

  lemma {:induction false} ChunksOfWords(vs: seq<nat>, width: nat)
    requires width > 0 && forall k :: 0 <= k < |vs| ==> vs[k] < Power16(width)
    ensures Chunks(WordsText(vs, width), width) == vs
  {
    var t := WordsText(vs, width);
    if vs != [] {
      ChunksOfWords(vs[1..], width);
      PaddedValue(vs[0], width);
      assert t[..width] == Padded(vs[0], width) && t[width..] == WordsText(vs[1..], width);
    }
  }

  // ----- Only what is encoded so is read -----

  lemma {:induction false} NumberBound(t: string)
    requires AllHex(t)
    ensures HexNumber(t) < Power16(|t|)
  {
    if t != "" {
      NumberBound(t[..|t| - 1]);
      HexDigitRead(t[|t| - 1]);
    }
  }

  lemma {:induction false} NumberPadded(t: string)
    requires AllHex(t)
    ensures Padded(HexNumber(t), |t|) == Lower(t)
  {
    if t != "" {
      var init, last := t[..|t| - 1], t[|t| - 1];
      NumberPadded(init);
      HexDigitRead(last);
      assert HexNumber(t) / 16 == HexNumber(init) && HexNumber(t) % 16 == HexValue(last).value;
      assert Lower(t) == Lower(init) + [LowerChar(last)];
    }
  }

  lemma {:induction false} ChunksWritten(t: string, width: nat, count: nat)
    requires width > 0 && AllHex(t) && |t| == width * count
    ensures WordsText(Chunks(t, width), width) == Lower(t) && |Chunks(t, width)| == count
    ensures forall v :: v in Chunks(t, width) ==> v < Power16(width)
  {
    if count == 0 {
      assert Lower(t) == "";
    } else {
      var first, rest := t[..width], t[width..];
      assert width * count == width + width * (count - 1);
      ChunksWritten(rest, width, count - 1);
      NumberPadded(first);
      NumberBound(first);
      assert t == first + rest;
      assert Lower(t) == Lower(first) + Lower(rest);
    }
  }

  // Read words are the data, written out: well formed data is the contract's encoding of the words,
  // up to the case of its digits.
  lemma WordsAreWritten(data: string, minimum: nat)
    requires Words(data, minimum).Some?
    ensures var ws := Words(data, minimum).value;
            && ws != [] && minimum <= |ws| && (forall v :: v in ws ==> v < Power16(64))
            && |data| > 2 && data[..2] == "0x" && Lower(data[2..]) == WordsText(ws, 64)
  {
    ChunksWritten(data[2..], 64, |data[2..]| / 64);
  }

  // Words of sixty-four digits, written out as the contract encodes them, read back.
  lemma WordsRoundTrip(vs: seq<nat>, width: nat, minimum: nat)
    requires width == 64 && vs != [] && minimum <= |vs| && forall k :: 0 <= k < |vs| ==> vs[k] < Power16(width)
    ensures Words("0x" + WordsText(vs, width), minimum) == Some(vs)
  {
    ChunksOfWords(vs, width);
    WordsRead(vs, WordsText(vs, width), width, minimum);
  }

  lemma WordsRead(vs: seq<nat>, t: string, width: nat, minimum: nat)
    requires width == 64 && vs != [] && minimum <= |vs| && |t| == width * |vs| && AllHex(t) && Chunks(t, width) == vs
    ensures Words("0x" + t, minimum) == Some(vs)
  {
    WordsOf("0x" + t, t, minimum);
  }

  lemma WordsOf(data: string, t: string, minimum: nat)
    requires data == "0x" + t && t != "" && AllHex(t) && |t| % 64 == 0
    ensures Words(data, minimum) == if |Chunks(t, 64)| < minimum then None else Some(Chunks(t, 64))
  {
    assert data[0] == '0' && data[1] == 'x' && data[2..] == t;
  }

  // ----- Decoding -----

  predicate IsTopic(t: string) {
    Prefixed(t) && |t| == 66 && AllHex(t[2..])
  }

  // An indexed address: the last forty digits of a topic, in lower case.
  function TopicAddress(t: string): Option<string> {
    if IsTopic(t) then Some("0x" + Lower(t[26..])) else None
  }

  // An address topic is sixty-four digits, of which the last forty are the address.
  lemma AddressesExactly(t: string)
    ensures TopicAddress(t).Some? <==>
              |t| == 66 && t[0] == '0' && t[1] == 'x' && forall k :: 2 <= k < 66 ==> HexValue(t[k]).Some?
    ensures TopicAddress(t).Some? ==> TopicAddress(t).value == "0x" + Lower(t[26..66])
  {
    if |t| == 66 { assert t[26..66] == t[26..]; }
    assert |t| == 66 ==> forall k :: 2 <= k < 66 ==> t[k] == t[2..][k - 2];
  }

  function Topic(log: Log, k: nat): string {
    if k < |log.topics| then log.topics[k] else ""
  }

  datatype Change =
    | RateTick(org: string, rateBps: nat)
    | Issue(job: string, org: string, principal: nat, fee: nat, rateBps: nat)
    | Repay(job: string, fee: nat)
    | WriteOff(job: string, bond: nat, reserve: nat, loss: nat)
    | Nothing

  // What a log says, or nothing where decoding it throws.
  function Decode(log: Log): Option<Change> {
    var event := Lower(Topic(log, 0));
    if event == RATE_CHANGED then
      match (TopicAddress(Topic(log, 1)), Words(log.data, 1))
      case (Some(org), Some(ws)) =>
        if ws != [] && ws[0] <= MAX_SAFE_INTEGER && log.blockNumber <= MAX_SAFE_INTEGER
        then Some(RateTick(org, ws[0])) else None
      case _ => None
    else
      var job := Lower(Topic(log, 1));
      if !IsTopic(job) then None
      else if event == ISSUED then
        match (TopicAddress(Topic(log, 2)), Words(log.data, 3))
        case (Some(org), Some(ws)) =>
          if |ws| >= 3 && ws[2] <= MAX_SAFE_INTEGER then Some(Issue(job, org, ws[0], ws[1], ws[2])) else None
        case _ => None
      else if event == REPAID then
        match Words(log.data, 3)
        case Some(ws) => if |ws| >= 3 then Some(Repay(job, ws[1])) else None
        case None => None
      else if event == WRITTEN_OFF then
        match Words(log.data, 3)
        case Some(ws) => if |ws| >= 3 then Some(WriteOff(job, ws[0], ws[1], ws[2])) else None
        case None => None
      else Some(Nothing)
  }

  // ----- What the contract emits is what is read -----

  // A rate change names the org in its first topic and carries its words likewise.
  predicate EmitsRate(log: Log, ws: seq<nat>, width: nat) {
    && |log.topics| >= 2 && Lower(log.topics[0]) == RATE_CHANGED
    && IsTopic(log.topics[1]) && log.blockNumber <= MAX_SAFE_INTEGER
    && width == 64 && ws != [] && ws[0] <= MAX_SAFE_INTEGER && (forall k :: 0 <= k < |ws| ==> ws[k] < Power16(width))
    && log.data == "0x" + WordsText(ws, width)
  }

  lemma EmittedRateDecodes(log: Log, ws: seq<nat>, width: nat)
    requires EmitsRate(log, ws, width)
    ensures TopicAddress(log.topics[1]).Some?
    ensures Decode(log) == Some(RateTick(TopicAddress(log.topics[1]).value, ws[0]))
  {
    WordsRoundTrip(ws, width, 1);
  }

  // An event of a job, with its words as the contract encodes them.
  predicate Emits(log: Log, event: string, job: string, ws: seq<nat>, width: nat) {
    && |log.topics| >= 2 && log.topics[0] == event && log.topics[1] == job
    && IsTopic(job) && Lower(job) == job && Lower(event) == event
    && width == 64 && |ws| >= 3 && (forall k :: 0 <= k < |ws| ==> ws[k] < Power16(width))
    && log.data == "0x" + WordsText(ws, width)
  }

  lemma TopicsDiffer()
    ensures ISSUED != REPAID && ISSUED != WRITTEN_OFF && REPAID != WRITTEN_OFF
    ensures ISSUED != RATE_CHANGED && REPAID != RATE_CHANGED && WRITTEN_OFF != RATE_CHANGED
  {
    assert ISSUED[2] == '4' && REPAID[2] == 'b' && WRITTEN_OFF[2] == '6' && RATE_CHANGED[2] == 'e';
  }

  lemma EmittedDecodes(log: Log, event: string, job: string, ws: seq<nat>, width: nat)
    requires Emits(log, event, job, ws, width)
    ensures event == REPAID ==> Decode(log) == Some(Repay(job, ws[1]))
    ensures event == WRITTEN_OFF ==> Decode(log) == Some(WriteOff(job, ws[0], ws[1], ws[2]))
    ensures event == ISSUED && TopicAddress(Topic(log, 2)).Some? && ws[2] <= MAX_SAFE_INTEGER ==>
              Decode(log) == Some(Issue(job, TopicAddress(Topic(log, 2)).value, ws[0], ws[1], ws[2]))
  {
    TopicsDiffer();
    WordsRoundTrip(ws, width, 3);
  }

  // And nothing else decodes: each event is read exactly where its topics and words are well formed
  // and its small numbers fit; any other event of a job says nothing.
  lemma DecodesExactly(log: Log)
    ensures var event, job, words := Lower(Topic(log, 0)), Lower(Topic(log, 1)), Words(log.data, 3);
            && (event == RATE_CHANGED ==>
                  (Decode(log).Some? <==>
                     && TopicAddress(Topic(log, 1)).Some? && Words(log.data, 1).Some?
                     && Words(log.data, 1).value[0] <= MAX_SAFE_INTEGER && log.blockNumber <= MAX_SAFE_INTEGER))
            && (event != RATE_CHANGED ==>
                  (Decode(log).Some? <==>
                     && IsTopic(job)
                     && (event == ISSUED ==>
                           TopicAddress(Topic(log, 2)).Some? && words.Some? && words.value[2] <= MAX_SAFE_INTEGER)
                     && (event == REPAID || event == WRITTEN_OFF ==> words.Some?)))
            && (Decode(log) == Some(Nothing) <==>
                  event != RATE_CHANGED && event != ISSUED && event != REPAID && event != WRITTEN_OFF && IsTopic(job))
  {
    TopicsDiffer();
    if Words(log.data, 1).Some? { WordsAreWritten(log.data, 1); }
    if Words(log.data, 3).Some? { WordsAreWritten(log.data, 3); }
  }

  // ----- Order -----

  predicate LogLe(a: Log, b: Log) {
    a.blockNumber < b.blockNumber || (a.blockNumber == b.blockNumber && a.logIndex <= b.logIndex)
  }

  lemma LogOrder()
    ensures Ranking(LogLe)
  {
  }

  // ----- History -----

  datatype Advance = Advance(
    job: string, org: string, principal: nat, fee: nat, rateBps: nat, openedAt: Option<nat>, txHash: string)

  datatype Tick = Tick(org: string, rateBps: nat, blockNumber: nat, txHash: string)

  datatype History = History(
    fees: nat,
    bondSlashed: nat,
    reserveUsed: nat,
    socialized: nat,
    open: map<string, Advance>,
    ticks: seq<Tick>,
    latestOrg: Option<string>)

  const EMPTY: History := History(0, 0, 0, 0, map[], [], None)

  // One log applied, an issued advance carrying `openedAt`.
  function Changed(h: History, log: Log, c: Change, openedAt: Option<nat>): History {
    match c
    case RateTick(org, bps) => h.(ticks := h.ticks + [Tick(org, bps, log.blockNumber, log.txHash)])
    case Issue(job, org, principal, fee, bps) =>
      h.(open := h.open[job := Advance(job, org, principal, fee, bps, openedAt, log.txHash)], latestOrg := Some(org))
    case Repay(job, fee) => h.(fees := h.fees + fee, open := h.open - {job})
    case WriteOff(job, bond, reserve, loss) =>
      h.(bondSlashed := h.bondSlashed + bond, reserveUsed := h.reserveUsed + reserve,
         socialized := h.socialized + loss, open := h.open - {job})
    case Nothing => h
  }

  // The time of a block.
  type Times = nat -> nat

  function Apply(times: Times, h: History, log: Log): Option<History> {
    match Decode(log)
    case Some(c) => Some(Changed(h, log, c, Some(times(log.blockNumber))))
    case None => None
  }

  // The one fold everything here is measured against.
  function FoldLogs(times: Times, h: History, logs: seq<Log>): Option<History> {
    if logs == [] then Some(h)
    else
      match FoldLogs(times, h, logs[..|logs| - 1])
      case Some(before) => Apply(times, before, logs[|logs| - 1])
      case None => None
  }

  lemma {:induction false} FoldSplit(times: Times, h: History, a: seq<Log>, b: seq<Log>)
    ensures FoldLogs(times, h, a + b) ==
            match FoldLogs(times, h, a) case Some(mid) => FoldLogs(times, mid, b) case None => None
  {
    if b == [] {
      assert a + b == a;
    } else {
      var init := b[..|b| - 1];
      assert (a + b)[..|a + b| - 1] == a + init;
      FoldSplit(times, h, a, init);
    }
  }

  // ----- The two passes of one extension: merge, then stamp what it opened -----

  // The jobs a merge opened, with the block that did.
  type Opened = map<string, nat>

  function Merge(h: History, newly: Opened, log: Log): Option<(History, Opened)> {
    match Decode(log)
    case None => None
    case Some(c) =>
      Some((Changed(h, log, c, None), if c.Issue? then newly[c.job := log.blockNumber] else newly))
  }

  function MergeAll(h: History, logs: seq<Log>): Option<(History, Opened)> {
    if logs == [] then Some((h, map[]))
    else
      match MergeAll(h, logs[..|logs| - 1])
      case Some((before, newly)) => Merge(before, newly, logs[|logs| - 1])
      case None => None
  }

  function StampedAdvance(times: Times, newly: Opened, job: string, a: Advance): Advance {
    if job in newly && a.openedAt.None? then a.(openedAt := Some(times(newly[job]))) else a
  }

  function StampedOpen(times: Times, open: map<string, Advance>, newly: Opened): map<string, Advance> {
    map job | job in open :: StampedAdvance(times, newly, job, open[job])
  }

  function Stamped(times: Times, h: History, newly: Opened): History {
    h.(open := StampedOpen(times, h.open, newly))
  }

  predicate AllStamped(h: History) {
    forall job :: job in h.open ==> h.open[job].openedAt.Some?
  }

  lemma StampIssue(times: Times, open: map<string, Advance>, newly: Opened, a: Advance, block: nat)
    requires a.openedAt.None?
    ensures StampedOpen(times, open[a.job := a], newly[a.job := block])
            == StampedOpen(times, open, newly)[a.job := a.(openedAt := Some(times(block)))]
  {
  }

  lemma StampDrop(times: Times, open: map<string, Advance>, newly: Opened, job: string)
    ensures StampedOpen(times, open - {job}, newly) == StampedOpen(times, open, newly) - {job}
  {
  }

  lemma StampedChange(times: Times, h: History, newly: Opened, log: Log, c: Change)
    ensures Changed(Stamped(times, h, newly), log, c, Some(times(log.blockNumber)))
            == Stamped(times, Changed(h, log, c, None), if c.Issue? then newly[c.job := log.blockNumber] else newly)
  {
    match c {
      case Issue(job, org, principal, fee, bps) =>
        StampIssue(times, h.open, newly, Advance(job, org, principal, fee, bps, None, log.txHash), log.blockNumber);
      case Repay(job, _) => StampDrop(times, h.open, newly, job);
      case WriteOff(job, _, _, _) => StampDrop(times, h.open, newly, job);
      case _ =>
    }
  }

  // Merging a log and stamping afterwards is applying it stamped.
  lemma StampedStep(times: Times, h: History, newly: Opened, log: Log)
    ensures match Merge(h, newly, log)
            case None => Apply(times, Stamped(times, h, newly), log).None?
            case Some((merged, more)) => Apply(times, Stamped(times, h, newly), log) == Some(Stamped(times, merged, more))
  {
    var c := Decode(log);
    if c.Some? {
      StampedChange(times, h, newly, log, c.value);
    }
  }

  // A batch merged and stamped is the batch folded, from a history that is stamped already.
  lemma {:induction false} MergeIsFold(times: Times, h: History, logs: seq<Log>)
    requires AllStamped(h)
    ensures match MergeAll(h, logs)
            case None => FoldLogs(times, h, logs).None?
            case Some((merged, newly)) => FoldLogs(times, h, logs) == Some(Stamped(times, merged, newly))
  {
    if logs == [] {
      assert StampedOpen(times, h.open, map[]) == h.open;
    } else {
      var init := logs[..|logs| - 1];
      MergeIsFold(times, h, init);
      match MergeAll(h, init) {
        case None =>
        case Some((before, newly)) => StampedStep(times, before, newly, logs[|logs| - 1]);
      }
    }
  }

  lemma {:induction false} FoldStamps(times: Times, h: History, logs: seq<Log>)
    requires AllStamped(h)
    ensures FoldLogs(times, h, logs).Some? ==> AllStamped(FoldLogs(times, h, logs).value)
  {
    if logs != [] {
      FoldStamps(times, h, logs[..|logs| - 1]);
    }
  }
}
