// The reservation ledger (daemon/internal/budget/budget.go): holds against a job's budget, their
// commits and releases, the fold that rebuilds them from the log, and the spend figures.
module Budget {
  import opened Wrappers
  import opened Intents
  import opened Policy

  type Id = string

  const MILLI: int := 1_000_000
  const DAY_MILLIS: int := 86_400_000
  // The zero time.Time, in nanoseconds since the epoch: year one.
  const ZERO_TIME: Instant := -62_135_596_800 * SECOND

  function Millis(t: Instant): int {
    t / MILLI
  }

  // Midnight UTC of the day of `now`, in milliseconds.
  function WindowStart(now: Instant): int {
    Millis(now) - Millis(now) % DAY_MILLIS
  }

  datatype Hold = Hold(jobId: string, orgId: string, micros: int, expiresAt: Instant, reservedAt: int)

  datatype Closing = StillOpen | Committed(paid: int) | Released

  // A claim or a close may be folded for a request whose reserve was never seen.
  datatype Entry = Entry(hold: Hold, reserved: bool, claimed: bool, closing: Closing)

  type Book = map<Id, Entry>

  const NO_HOLD := Hold("", "", 0, ZERO_TIME, 0)
  const NO_ENTRY := Entry(NO_HOLD, false, false, StillOpen)

  function Lookup(book: Book, id: Id): Entry {
    if id in book then book[id] else NO_ENTRY
  }

  predicate IsOpen(e: Entry) {
    e.reserved && e.closing.StillOpen?
  }

  // ----- The fold -----

  datatype Event =
    | HoldReserved(id: Id, hold: Hold)
    | HoldCommitted(id: Id, paid: int)
    | HoldReleased(id: Id)
    | Executing(id: Id)

  datatype State = State(book: Book, jobOrg: map<string, string>)

  // The first writer of a job names its org.
  function Learn(jobOrg: map<string, string>, job: string, org: string): map<string, string> {
    if job != "" && org != "" && job !in jobOrg then jobOrg[job := org] else jobOrg
  }

  // An expiry at or before the epoch reads back as the zero time.
  function Stored(h: Hold): Hold {
    if h.expiresAt / SECOND <= 0 then h.(expiresAt := ZERO_TIME) else h
  }

  function Apply(s: State, e: Event): State {
    if e.id == "" then s
    else
      var was := Lookup(s.book, e.id);
      match e
      case HoldReserved(id, h) =>
        State(s.book[id := was.(reserved := true, hold := Stored(h))], Learn(s.jobOrg, h.jobId, h.orgId))
      case HoldCommitted(id, paid) =>
        s.(book := s.book[id := if was.closing.StillOpen? then was.(closing := Committed(paid)) else was])
      case HoldReleased(id) =>
        s.(book := s.book[id := if was.closing.StillOpen? then was.(closing := Released) else was])
      case Executing(id) => s.(book := s.book[id := was.(claimed := true)])
  }

  function Fold(log: seq<Event>): State {
    if log == [] then State(map[], map[]) else Apply(Fold(log[..|log| - 1]), log[|log| - 1])
  }

  lemma FoldAppend(log: seq<Event>, e: Event)
    ensures Fold(log + [e]) == Apply(Fold(log), e)
  {
    assert (log + [e])[..|log|] == log;
  }

  // ----- The spend figures -----

  // Which holds a figure counts: those of a job, or those reserved since an instant, of one org
  // or of all.
  datatype Slice = OfJob(job: string) | OfOrg(org: string, since: int) | OfAll(since: int)

  predicate Covers(slice: Slice, h: Hold) {
    match slice
    case OfJob(job) => h.jobId == job
    case OfOrg(org, since) => h.orgId == org && h.reservedAt >= since
    case OfAll(since) => h.reservedAt >= since
  }

  // An open hold counts at its reserved figure, a settled one at what moved, a released one at
  // nothing; only positive figures count.
  function Amount(e: Entry): int {
    match e.closing
    case StillOpen => e.hold.micros
    case Committed(paid) => paid
    case Released => 0
  }

  function Worth(e: Entry, slice: Slice): nat {
    if e.reserved && Covers(slice, e.hold) && Amount(e) > 0 then Amount(e) else 0
  }

  ghost function Total(book: Book, slice: Slice): nat {
    if book == map[] then 0
    else
      var id :| id in book;
      Worth(book[id], slice) + Total(book - {id}, slice)
  }

  lemma {:induction false} TotalWithout(book: Book, slice: Slice, id: Id)
    requires id in book
    ensures Total(book, slice) == Worth(book[id], slice) + Total(book - {id}, slice)
    decreases |book|
  {
    var x :| x in book && Total(book, slice) == Worth(book[x], slice) + Total(book - {x}, slice);
    if x != id {
      TotalWithout(book - {x}, slice, id);
      TotalWithout(book - {id}, slice, x);
      assert book - {x} - {id} == book - {id} - {x};
    }
  }

  // Writing one entry changes a figure by the difference of its worths.
  lemma TotalUpdate(book: Book, slice: Slice, id: Id, e: Entry)
    ensures Total(book[id := e], slice) == Total(book, slice) - Worth(Lookup(book, id), slice) + Worth(e, slice)
  {
    TotalWithout(book[id := e], slice, id);
    if id in book {
      TotalWithout(book, slice, id);
      assert book[id := e] - {id} == book - {id};
    } else {
      assert book[id := e] - {id} == book;
    }
  }

  // A figure that counts no more, entry for entry, is no larger.
  lemma {:induction false} TotalWithin(book: Book, narrow: Slice, wide: Slice)
    requires forall id :: id in book ==> Worth(book[id], narrow) <= Worth(book[id], wide)
    ensures Total(book, narrow) <= Total(book, wide)
    decreases |book|
  {
    if book != map[] {
      var id :| id in book;
      TotalWithout(book, narrow, id);
      TotalWithout(book, wide, id);
      TotalWithin(book - {id}, narrow, wide);
    }
  }

  lemma TotalDrop(book: Book, slice: Slice, id: Id)
    ensures Total(book, slice) == Worth(Lookup(book, id), slice) + Total(book - {id}, slice)
    ensures forall x :: Lookup(book - {id}, x) == if x == id then NO_ENTRY else Lookup(book, x)
  {
    if id in book { TotalWithout(book, slice, id); } else { assert book - {id} == book; }
  }

  // Books that agree on every entry's worth have the same figure.
  lemma {:induction false} TotalAgrees(a: Book, b: Book, slice: Slice)
    requires forall id :: Worth(Lookup(a, id), slice) == Worth(Lookup(b, id), slice)
    ensures Total(a, slice) == Total(b, slice)
    decreases |a|
  {
    if a == map[] {
      TotalZero(b, slice);
    } else {
      var id :| id in a;
      TotalDrop(a, slice, id);
      TotalDrop(b, slice, id);
      TotalAgrees(a - {id}, b - {id}, slice);
    }
  }

  lemma {:induction false} TotalZero(book: Book, slice: Slice)
    requires forall id :: Worth(Lookup(book, id), slice) == 0
    ensures Total(book, slice) == 0
    decreases |book|
  {
    if book != map[] {
      var id :| id in book;
      TotalDrop(book, slice, id);
      assert Worth(Lookup(book, id), slice) == 0;
      TotalZero(book - {id}, slice);
    }
  }

  function SatAdd(a: int, b: int): int {
    if b > 0 && a > MAX_INT64 - b then MAX_INT64 else a + b
  }

  function Capped(n: int): int {
    if n > MAX_INT64 then MAX_INT64 else n
  }

  // The daily figure covers the org the job's first hold named, or every org when none did.
  function DailySlice(s: State, job: string, now: Instant): Slice {
    if job in s.jobOrg && s.jobOrg[job] != "" then OfOrg(s.jobOrg[job], WindowStart(now)) else OfAll(WindowStart(now))
  }

  ghost function SpendOf(s: State, job: string, now: Instant): Spend {
    Spend(Capped(Total(s.book, OfJob(job))), Capped(Total(s.book, DailySlice(s, job, now))))
  }

  // ----- What intake asks for -----

  // What the wiring layer holds for an intent: the evaluated amount, or nothing when the ceiling
  // exceeds it or the amount is not positive.
  function ReserveMicros(i: Intent): Option<int> {
    if i.amountMicros <= 0 then None
    else if i.maxAmountMicros > i.amountMicros then None
    else Some(i.amountMicros)
  }

  // The hold an intent asks the ledger for; the ledger refuses a figure that is not positive.
  function HoldFor(i: Intent): Hold {
    Hold(i.jobId, i.orgId, match ReserveMicros(i) case Some(n) => n case None => 0, i.expiresAt, 0)
  }

  // An intent some policy lets through and the ledger would hold.
  predicate Openable(i: Intent) {
    && (i.kind == "" || i.kind == PAYMENT) && 0 < i.amountMicros <= MAX_INTENT
    && i.maxAmountMicros <= i.amountMicros && i.jobId != "" && i.expiresAt != ZERO_TIME
  }

  // ----- Critical sections -----

  datatype Verdict = InvalidHold | NoSuchHold | HoldClosed | CommitAfterRelease | AppendFailed | Done

  // Reserve: `now` stamps the hold, and the stored expiry has second precision.
  function ReserveEffect(s: State, id: Id, h: Hold, now: Instant, appended: bool): (r: (Verdict, State, seq<Event>)) {
    var was := Lookup(s.book, id);
    if id == "" || h.jobId == "" || h.micros <= 0 || h.expiresAt == ZERO_TIME then (InvalidHold, s, [])
    else if !was.closing.StillOpen? then (HoldClosed, s, [])
    else if was.reserved then (Done, s, [])
    else if !appended then (AppendFailed, s, [])
    else
      var held := h.(reservedAt := Millis(now), expiresAt := WholeSeconds(h.expiresAt));
      (Done,
       State(s.book[id := was.(reserved := true, hold := held)], Learn(s.jobOrg, h.jobId, h.orgId)),
       [HoldReserved(id, held)])
  }

  function CommitEffect(s: State, id: Id, paid: int, appended: bool): (r: (Verdict, State, seq<Event>)) {
    var was := Lookup(s.book, id);
    if id == "" || paid < 0 then (InvalidHold, s, [])
    else if !was.reserved then (NoSuchHold, s, [])
    else if was.closing.Committed? then (Done, s, [])
    else if was.closing.Released? then (CommitAfterRelease, s, [])
    else if !appended then (AppendFailed, s, [])
    else
      (Done, s.(book := s.book[id := was.(closing := Committed(paid))]), [HoldCommitted(id, paid)])
  }

  function ReleaseEffect(s: State, id: Id, appended: bool): (r: (Verdict, State, seq<Event>)) {
    var was := Lookup(s.book, id);
    if id == "" then (InvalidHold, s, [])
    else if !was.reserved then (NoSuchHold, s, [])
    else if !was.closing.StillOpen? then (Done, s, [])
    else if !appended then (AppendFailed, s, [])
    else (Done, s.(book := s.book[id := was.(closing := Released)]), [HoldReleased(id)])
  }

  // A new request is held exactly for the openable intents: one that was let through and held is
  // openable, and an openable one is let through by some policy and held.
  lemma OpenableExactly(s: State, id: Id, i: Intent, now: Instant)
    requires id != "" && id !in s.book
    ensures Openable(i) <==>
              && (exists cfg, spend :: Evaluate(cfg, spend, i).outcome != Deny)
              && ReserveEffect(s, id, HoldFor(i), now, true).0 == Done
  {
    if Openable(i) {
      var cfg := Config(MAX_INTENT, MAX_INTENT, MAX_INTENT, MAX_INTENT, [i.merchant], map[], []);
      assert Evaluate(cfg, Spend(0, 0), i).outcome == AutoApprove;
    }
  }

  // ----- What each critical section does to the figures -----

  function Positive(n: int): nat {
    if n > 0 then n else 0
  }

  // What counts toward a figure: spend on the job; or on the org, or on any, reserved since.
  predicate CountsToward(slice: Slice, job: string, org: string, reservedAt: int) {
    match slice
    case OfJob(j) => job == j
    case OfOrg(o, since) => org == o && since <= reservedAt
    case OfAll(since) => since <= reservedAt
  }

  // A hold taken raises every figure it counts toward by what it holds.
  lemma ReserveRaises(s: State, id: Id, h: Hold, now: Instant, slice: Slice)
    requires id != "" && h.jobId != "" && h.micros > 0 && h.expiresAt != ZERO_TIME
    requires !Lookup(s.book, id).reserved && Lookup(s.book, id).closing == StillOpen
    ensures var (v, s', events) := ReserveEffect(s, id, h, now, true);
            && v == Done && |events| == 1
            && Total(s'.book, slice) == Total(s.book, slice)
                 + if CountsToward(slice, h.jobId, h.orgId, Millis(now)) then h.micros else 0
  {
    var was := Lookup(s.book, id);
    var held := h.(reservedAt := Millis(now), expiresAt := WholeSeconds(h.expiresAt));
    TotalUpdate(s.book, slice, id, was.(reserved := true, hold := held));
  }

  // A commit moves every figure its hold counts toward from what was held to what was paid.
  lemma CommitMoves(s: State, id: Id, paid: int, slice: Slice)
    requires id != "" && paid >= 0 && Lookup(s.book, id).reserved && Lookup(s.book, id).closing == StillOpen
    ensures var (v, s', events) := CommitEffect(s, id, paid, true);
            var h := Lookup(s.book, id).hold;
            && v == Done && |events| == 1
            && Total(s'.book, slice) == Total(s.book, slice)
                 + if CountsToward(slice, h.jobId, h.orgId, h.reservedAt) then paid - Positive(h.micros) else 0
  {
    TotalUpdate(s.book, slice, id, Lookup(s.book, id).(closing := Committed(paid)));
  }

  // A release gives every figure its hold counts toward back what was held.
  lemma ReleaseLowers(s: State, id: Id, slice: Slice)
    requires id != "" && Lookup(s.book, id).reserved && Lookup(s.book, id).closing == StillOpen
    ensures var (v, s', events) := ReleaseEffect(s, id, true);
            var h := Lookup(s.book, id).hold;
            && v == Done && |events| == 1
            && Total(s'.book, slice) == Total(s.book, slice)
                 - if CountsToward(slice, h.jobId, h.orgId, h.reservedAt) then Positive(h.micros) else 0
  {
    TotalUpdate(s.book, slice, id, Lookup(s.book, id).(closing := Released));
  }

  // Anything else, a refusal, a repetition or a failed append, changes no entry.
  lemma OnlyTheseMove(s: State, id: Id, h: Hold, paid: int, now: Instant, appended: bool)
    ensures var e := Lookup(s.book, id);
            && (ReserveEffect(s, id, h, now, appended).2 != [] <==>
                  && id != "" && h.jobId != "" && h.micros > 0 && h.expiresAt != ZERO_TIME
                  && !e.reserved && e.closing == StillOpen && appended)
            && (CommitEffect(s, id, paid, appended).2 != [] <==>
                  id != "" && paid >= 0 && e.reserved && e.closing == StillOpen && appended)
            && (ReleaseEffect(s, id, appended).2 != [] <==>
                  id != "" && e.reserved && e.closing == StillOpen && appended)
            && (ReserveEffect(s, id, h, now, appended).2 == [] ==> ReserveEffect(s, id, h, now, appended).1 == s)
            && (CommitEffect(s, id, paid, appended).2 == [] ==> CommitEffect(s, id, paid, appended).1 == s)
            && (ReleaseEffect(s, id, appended).2 == [] ==> ReleaseEffect(s, id, appended).1 == s)
  {
  }

  // The verdicts a closed hold draws: the first close wins, a repetition of it is no error, and a
  // commit after a release is told apart from both.
  lemma ClosedVerdicts(s: State, id: Id, h: Hold, paid: int, now: Instant, appended: bool)
    requires id != "" && paid >= 0 && Lookup(s.book, id).reserved && Lookup(s.book, id).closing != StillOpen
    ensures CommitEffect(s, id, paid, appended) ==
              (if Lookup(s.book, id).closing.Committed? then Done else CommitAfterRelease, s, [])
    ensures ReleaseEffect(s, id, appended) == (Done, s, [])
    ensures h.jobId != "" && h.micros > 0 && h.expiresAt != ZERO_TIME ==>
              ReserveEffect(s, id, h, now, appended) == (HoldClosed, s, [])
  {
  }

  // The day begins at midnight UTC and has its eighty-six million four hundred thousand milliseconds.
  lemma DayBounds(now: Instant)
    ensures WindowStart(now) % 86_400_000 == 0
    ensures WindowStart(now) <= Millis(now) < WindowStart(now) + 86_400_000
    ensures 1_000_000 * Millis(now) <= now < 1_000_000 * Millis(now) + 1_000_000
  {
    var m := Millis(now);
    assert m == DAY_MILLIS * (m / DAY_MILLIS) + m % DAY_MILLIS;
    assert WindowStart(now) == DAY_MILLIS * (m / DAY_MILLIS);
    TimesMod(m / DAY_MILLIS);
  }

  lemma TimesMod(k: int)
    ensures (DAY_MILLIS * k) % 86_400_000 == 0
  {
  }

  // ----- Memory against the log -----

  // The same entry but for a claim memory has not read yet, and for an expiry within the epoch's first
  // second or before it, which the log reads back as none.
  predicate SameEntry(memory: Entry, folded: Entry) {
    && folded == memory.(claimed := folded.claimed, hold := folded.hold)
    && folded.hold ==
         memory.hold.(expiresAt := if memory.hold.expiresAt >= SECOND then memory.hold.expiresAt else ZERO_TIME)
    && (memory.claimed ==> folded.claimed)
  }

  // What is in memory is what a restart would rebuild.
  ghost predicate Durable(s: State, log: seq<Event>) {
    && (forall id :: SameEntry(Lookup(s.book, id), Lookup(Fold(log).book, id)))
    && s.jobOrg == Fold(log).jobOrg
  }

  lemma ReserveDurable(s: State, log: seq<Event>, id: Id, h: Hold, now: Instant, appended: bool)
    requires Durable(s, log)
    ensures var (_, s', events) := ReserveEffect(s, id, h, now, appended); Durable(s', log + events)
  {
    var (_, s', events) := ReserveEffect(s, id, h, now, appended);
    if events == [] {
      assert log + events == log;
    } else {
      FoldAppend(log, events[0]);
      forall x ensures SameEntry(Lookup(s'.book, x), Lookup(Fold(log + events).book, x)) {
        assert SameEntry(Lookup(s.book, x), Lookup(Fold(log).book, x));
      }
    }
  }

  lemma CommitDurable(s: State, log: seq<Event>, id: Id, paid: int, appended: bool)
    requires Durable(s, log)
    ensures var (_, s', events) := CommitEffect(s, id, paid, appended); Durable(s', log + events)
  {
    var (_, s', events) := CommitEffect(s, id, paid, appended);
    if events == [] {
      assert log + events == log;
    } else {
      FoldAppend(log, events[0]);
      forall x ensures SameEntry(Lookup(s'.book, x), Lookup(Fold(log + events).book, x)) {
        assert SameEntry(Lookup(s.book, x), Lookup(Fold(log).book, x));
      }
    }
  }

  lemma ReleaseDurable(s: State, log: seq<Event>, id: Id, appended: bool)
    requires Durable(s, log)
    ensures var (_, s', events) := ReleaseEffect(s, id, appended); Durable(s', log + events)
  {
    var (_, s', events) := ReleaseEffect(s, id, appended);
    if events == [] {
      assert log + events == log;
    } else {
      FoldAppend(log, events[0]);
      forall x ensures SameEntry(Lookup(s'.book, x), Lookup(Fold(log + events).book, x)) {
        assert SameEntry(Lookup(s.book, x), Lookup(Fold(log).book, x));
      }
    }
  }

  // The lifecycle's claim, logged by another component and not yet read.
  lemma ClaimDurable(s: State, log: seq<Event>, id: Id)
    requires Durable(s, log)
    ensures Durable(s, log + [Executing(id)])
  {
    FoldAppend(log, Executing(id));
    forall x ensures SameEntry(Lookup(s.book, x), Lookup(Fold(log + [Executing(id)]).book, x)) {
      assert SameEntry(Lookup(s.book, x), Lookup(Fold(log).book, x));
    }
  }

  predicate ClaimLogged(log: seq<Event>, id: Id) {
    log != [] && (log[|log| - 1] == Executing(id) || ClaimLogged(log[..|log| - 1], id))
  }

  // The claims the fold carries are the logged ones.
  lemma {:induction false} ClaimsFolded(log: seq<Event>, id: Id)
    requires id != ""
    ensures Lookup(Fold(log).book, id).claimed <==> ClaimLogged(log, id)
  {
    if log != [] {
      ClaimsFolded(log[..|log| - 1], id);
    }
  }

  lemma {:induction false} NoEmptyId(log: seq<Event>)
    ensures "" !in Fold(log).book
  {
    if log != [] {
      NoEmptyId(log[..|log| - 1]);
    }
  }

  // Reading logged claims into memory.
  function WithClaims(book: Book, claims: set<Id>): Book {
    map id | id in book.Keys + claims :: if id in claims then Lookup(book, id).(claimed := true) else book[id]
  }

  lemma ClaimsLookup(book: Book, claims: set<Id>)
    ensures forall id :: Lookup(WithClaims(book, claims), id) ==
              if id in claims then Lookup(book, id).(claimed := true) else Lookup(book, id)
  {
  }

  lemma RefreshDurable(s: State, log: seq<Event>, claims: set<Id>)
    requires Durable(s, log) && forall id :: id in claims ==> id != "" && ClaimLogged(log, id)
    ensures Durable(s.(book := WithClaims(s.book, claims)), log)
  {
    ClaimsLookup(s.book, claims);
    forall x ensures SameEntry(Lookup(WithClaims(s.book, claims), x), Lookup(Fold(log).book, x)) {
      assert SameEntry(Lookup(s.book, x), Lookup(Fold(log).book, x));
      if x in claims { ClaimsFolded(log, x); }
    }
  }

  // Memory that has read every logged claim agrees with the log about all of them.
  lemma RefreshedClaims(s: State, log: seq<Event>, claims: set<Id>, id: Id)
    requires Durable(s, log) && id != "" && (ClaimLogged(log, id) <==> id in claims)
    ensures Lookup(WithClaims(s.book, claims), id).claimed <==> ClaimLogged(log, id)
  {
    ClaimsLookup(s.book, claims);
    ClaimsFolded(log, id);
    assert SameEntry(Lookup(s.book, id), Lookup(Fold(log).book, id));
  }

  // A restart leaves every figure as it was.
  lemma RestartKeepsTotal(s: State, log: seq<Event>, slice: Slice)
    requires Durable(s, log)
    ensures Total(Fold(log).book, slice) == Total(s.book, slice)
  {
    forall id ensures Worth(Lookup(s.book, id), slice) == Worth(Lookup(Fold(log).book, id), slice) {
      assert SameEntry(Lookup(s.book, id), Lookup(Fold(log).book, id));
    }
    TotalAgrees(s.book, Fold(log).book, slice);
  }

  // And so what any job's next intake is told.
  lemma RestartKeepsSpend(s: State, log: seq<Event>, job: string, now: Instant)
    requires Durable(s, log)
    ensures SpendOf(Fold(log), job, now) == SpendOf(s, job, now)
  {
    RestartKeepsTotal(s, log, OfJob(job));
    RestartKeepsTotal(s, log, DailySlice(s, job, now));
  }

  lemma {:induction false} FoldedExpiry(log: seq<Event>, id: Id)
    ensures var t := Lookup(Fold(log).book, id).hold.expiresAt; t >= SECOND || t == ZERO_TIME
  {
    if log != [] {
      FoldedExpiry(log[..|log| - 1], id);
    }
  }

  lemma FoldDurable(log: seq<Event>)
    ensures Durable(Fold(log), log)
  {
    forall id ensures SameEntry(Lookup(Fold(log).book, id), Lookup(Fold(log).book, id)) {
      FoldedExpiry(log, id);
    }
  }
}
