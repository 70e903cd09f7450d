// The ledger object (daemon/internal/budget/budget.go): its maps and the log updated in place,
// each method proved against the critical sections of module Budget.
module BudgetLedger {
  import opened Wrappers
  import opened Intents
  import opened Policy
  import opened Budget
  import opened Ordering

  class Ledger {
    var book: Book
    var jobOrg: map<string, string>
    var log: seq<Event>

    function View(): State
      reads this
    {
      State(book, jobOrg)
    }

    // Memory is what a restart would rebuild from the log.
    ghost predicate Valid()
      reads this
    {
      Durable(View(), log)
    }

    constructor ()
      ensures Valid() && View() == State(map[], map[]) && log == []
    {
      book, jobOrg, log := map[], map[], [];
    }

    method Reserve(id: Id, h: Hold, now: Instant, appended: bool) returns (r: Verdict)
      requires Valid()
      modifies this
      ensures Valid()
      ensures var (result, after, events) := ReserveEffect(old(View()), id, h, now, appended);
              r == result && View() == after && log == old(log) + events
    {
      ReserveDurable(View(), log, id, h, now, appended);
      if id == "" || h.jobId == "" || h.micros <= 0 || h.expiresAt == ZERO_TIME {
        return InvalidHold;
      }
      var entry := Lookup(book, id);
      if entry.closing != StillOpen {
        return HoldClosed;
      }
      if entry.reserved {
        return Done;
      }
      if !appended {
        return AppendFailed;
      }
      var held := h.(reservedAt := Millis(now), expiresAt := WholeSeconds(h.expiresAt));
      log := log + [HoldReserved(id, held)];
      book := book[id := entry.(reserved := true, hold := held)];
      if h.orgId != "" && h.jobId !in jobOrg {
        jobOrg := jobOrg[h.jobId := h.orgId];
      }
      return Done;
    }

    method Commit(id: Id, paid: int, appended: bool) returns (r: Verdict)
      requires Valid()
      modifies this
      ensures Valid()
      ensures var (result, after, events) := CommitEffect(old(View()), id, paid, appended);
              r == result && View() == after && log == old(log) + events
    {
      CommitDurable(View(), log, id, paid, appended);
      if id == "" || paid < 0 {
        return InvalidHold;
      }
      var entry := Lookup(book, id);
      if !entry.reserved {
        return NoSuchHold;
      }
      match entry.closing {
        case Committed(_) => return Done;
        case Released => return CommitAfterRelease;
        case StillOpen =>
      }
      if !appended {
        return AppendFailed;
      }
      log := log + [HoldCommitted(id, paid)];
      book := book[id := entry.(closing := Committed(paid))];
      return Done;
    }

    method Release(id: Id, appended: bool) returns (r: Verdict)
      requires Valid()
      modifies this
      ensures Valid()
      ensures var (result, after, events) := ReleaseEffect(old(View()), id, appended);
              r == result && View() == after && log == old(log) + events
    {
      ReleaseDurable(View(), log, id, appended);
      if id == "" {
        return InvalidHold;
      }
      var entry := Lookup(book, id);
      if !entry.reserved {
        return NoSuchHold;
      }
      if entry.closing != StillOpen {
        return Done;
      }
      if !appended {
        return AppendFailed;
      }
      log := log + [HoldReleased(id)];
      book := book[id := entry.(closing := Released)];
      return Done;
    }

    // The lifecycle's payment.executing landing in the shared log: memory has yet to read it.
    method ClaimExecution(id: Id)
      requires Valid()
      modifies this`log
      ensures Valid() && log == old(log) + [Executing(id)]
    {
      ClaimDurable(View(), log, id);
      log := log + [Executing(id)];
    }

    // Merge the logged claims into memory, which then knows exactly those.
    method RefreshClaims()
      requires Valid()
      modifies this`book
      ensures Valid()
      ensures forall id :: id != "" ==> (Lookup(book, id).claimed <==> ClaimLogged(log, id))
      ensures forall id :: Lookup(book, id) == Lookup(old(book), id).(claimed := Lookup(book, id).claimed)
    {
      var claims: set<Id> := {};
      for i := 0 to |log|
        invariant forall id :: id in claims <==> id != "" && ClaimLogged(log[..i], id)
      {
        assert log[..i + 1][..i] == log[..i];
        if log[i].Executing? && log[i].id != "" {
          claims := claims + {log[i].id};
        }
      }
      assert log[..|log|] == log;
      RefreshDurable(View(), log, claims);
      ClaimsLookup(book, claims);
      forall id | id != "" ensures Lookup(WithClaims(book, claims), id).claimed <==> ClaimLogged(log, id) {
        RefreshedClaims(View(), log, claims, id);
      }
      book := WithClaims(book, claims);
    }

    // Release every hold that is provably dead: open, expired, with no claim in the log and none
    // in the executor's memory. Nothing else changes; a failed append stops it.
    method Sweep(now: Instant, claimed: Id -> bool, appends: Id -> bool) returns (released: nat, ok: bool)
      requires Valid()
      modifies this
      ensures Valid() && jobOrg == old(jobOrg) && released == |log| - |old(log)|
      ensures forall id :: Lookup(book, id).closing != Lookup(old(book), id).closing ==>
                && ProvablyDead(Lookup(old(book), id), old(log), id, now) && !claimed(id)
                && Lookup(book, id).closing == Released
      ensures ok ==> forall id :: ProvablyDead(Lookup(old(book), id), old(log), id, now) && !claimed(id) ==>
                Lookup(book, id).closing == Released
      ensures forall id :: var e := Lookup(book, id);
                e == Lookup(old(book), id).(claimed := e.claimed, closing := e.closing)
      ensures (forall id :: appends(id)) ==> ok
      // Nothing is released that may have been paid or may still be.
      ensures forall id :: Lookup(book, id).closing != Lookup(old(book), id).closing ==>
                && Lookup(old(book), id).closing == StillOpen && !ClaimLogged(old(log), id)
                && Lookup(old(book), id).hold.expiresAt != ZERO_TIME && Lookup(old(book), id).hold.expiresAt <= now
    {
      ghost var was := book;
      RefreshClaims();
      ghost var refreshed := book;
      var dead := Dead(now);
      DeadExactly(was, refreshed, log, dead, now);
      StringOrder();
      SortDistinct(dead, StringLe);
      released, ok := ReleaseEach(Sort(dead, StringLe), claimed, appends);
    }

    // Release the given open holds in turn, but for those the executor has claimed by then.
    method ReleaseEach(dead: seq<Id>, claimed: Id -> bool, appends: Id -> bool) returns (released: nat, ok: bool)
      requires Valid() && Distinct(dead) && forall id :: id in dead ==> id != "" && IsOpen(Lookup(book, id))
      modifies this
      ensures Valid() && jobOrg == old(jobOrg) && released == |log| - |old(log)|
      ensures exists k: nat :: k <= |dead| && (ok ==> k == |dead|) && Freed(old(book), book, dead[..k], claimed)
      ensures (forall id :: appends(id)) ==> ok
    {
      released := 0;
      for k := 0 to |dead|
        invariant Valid() && jobOrg == old(jobOrg) && released == |log| - |old(log)|
        invariant Freed(old(book), book, dead[..k], claimed)
      {
        var id := dead[k];
        FreedNext(old(book), book, dead, k, claimed);
        if claimed(id) {
          continue;
        }
        var r := Release(id, appends(id));
        if r != Done {
          return released, false;
        }
        released := released + 1;
      }
      return released, true;
    }

    // The holds the sweep may release, in whatever order the map yields them.
    method Dead(now: Instant) returns (ids: seq<Id>)
      ensures Distinct(ids)
      ensures forall id :: id in ids <==>
                && id in book && IsOpen(book[id]) && !book[id].claimed
                && book[id].hold.expiresAt != ZERO_TIME && book[id].hold.expiresAt <= now
    {
      ids := [];
      var rest := book.Keys;
      while rest != {}
        invariant rest <= book.Keys && Distinct(ids)
        invariant forall id :: id in ids <==>
                    && id in book && id !in rest && IsOpen(book[id]) && !book[id].claimed
                    && book[id].hold.expiresAt != ZERO_TIME && book[id].hold.expiresAt <= now
        decreases |rest|
      {
        var id :| id in rest;
        rest := rest - {id};
        var e := book[id];
        if !IsOpen(e) || e.claimed {
          continue;
        }
        if e.hold.expiresAt == ZERO_TIME || now < e.hold.expiresAt {
          continue;
        }
        ids := ids + [id];
      }
    }

    // The two figures, summed over the entries in whatever order the map yields them.
    method Spend(job: string, now: Instant) returns (spend: Policy.Spend)
      ensures spend == SpendOf(View(), job, now)
    {
      var since := WindowStart(now);
      var org := if job in jobOrg then jobOrg[job] else "";
      ghost var daily := DailySlice(View(), job, now);
      var committed, today := 0, 0;
      var rest := book.Keys;
      assert book - rest == map[];
      while rest != {}
        invariant rest <= book.Keys
        invariant committed == Capped(Total(book - rest, OfJob(job)))
        invariant today == Capped(Total(book - rest, daily))
        decreases |rest|
      {
        var id :| id in rest;
        var e := book[id];
        Counted(book, rest, id, OfJob(job));
        Counted(book, rest, id, daily);
        rest := rest - {id};
        if !e.reserved {
          continue;
        }
        var amount := Amount(e);
        if amount <= 0 {
          continue;
        }
        if e.hold.jobId == job {
          committed := SatAdd(committed, amount);
        }
        if org != "" && e.hold.orgId != org {
          continue;
        }
        if e.hold.reservedAt >= since {
          today := SatAdd(today, amount);
        }
      }
      assert book - rest == book;
      return Policy.Spend(committed, today);
    }

    // The open holds that carry an execution claim, each once, oldest first.
    method Unresolved() returns (ids: seq<Id>)
      ensures Distinct(ids) && Sorted(ids, OlderFirst(book))
      ensures forall i, j :: 0 <= i < j < |ids| ==>
                var a, b := Lookup(book, ids[i]).hold.reservedAt, Lookup(book, ids[j]).hold.reservedAt;
                a < b || (a == b && StringLe(ids[i], ids[j]))
      ensures forall id :: id in ids <==> id in book && IsOpen(book[id]) && book[id].claimed
    {
      ids := [];
      var rest := book.Keys;
      while rest != {}
        invariant rest <= book.Keys && Distinct(ids)
        invariant forall id :: id in ids <==> id in book && id !in rest && IsOpen(book[id]) && book[id].claimed
        decreases |rest|
      {
        var id :| id in rest;
        rest := rest - {id};
        if IsOpen(book[id]) && book[id].claimed {
          ids := ids + [id];
        }
      }
      OlderRanks(book);
      SortDistinct(ids, OlderFirst(book));
      ids := Sort(ids, OlderFirst(book));
    }

    // Boot: the fold into fresh state. It rebuilds what memory held.
    method Recover()
      modifies this`book, this`jobOrg
      ensures View() == Fold(log) && Valid()
    {
      var folded := State(map[], map[]);
      var i := 0;
      while i < |log|
        invariant 0 <= i <= |log|
        invariant folded == Fold(log[..i])
      {
        assert log[..i + 1] == log[..i] + [log[i]];
        FoldAppend(log[..i], log[i]);
        folded := Apply(folded, log[i]);
        i := i + 1;
      }
      assert log[..i] == log;
      FoldDurable(log);
      book, jobOrg := folded.book, folded.jobOrg;
    }
  }

  // Open and expired, with no execution claim in the log: nothing can have been signed for it.
  predicate ProvablyDead(e: Entry, log: seq<Event>, id: Id, now: Instant) {
    IsOpen(e) && !ClaimLogged(log, id) && e.hold.expiresAt != ZERO_TIME && e.hold.expiresAt <= now
  }

  // The named holds are released, but for the claimed ones, and nothing else has changed.
  ghost predicate Freed(was: Book, book: Book, ids: seq<Id>, claimed: Id -> bool) {
    forall id :: Lookup(book, id) ==
                   if id in ids && !claimed(id) then Lookup(was, id).(closing := Released) else Lookup(was, id)
  }

  lemma FreedNext(was: Book, book: Book, ids: seq<Id>, k: nat, claimed: Id -> bool)
    requires k < |ids| && Distinct(ids) && Freed(was, book, ids[..k], claimed)
    ensures Lookup(book, ids[k]) == Lookup(was, ids[k])
    ensures claimed(ids[k]) ==> Freed(was, book, ids[..k + 1], claimed)
    ensures !claimed(ids[k]) ==>
              Freed(was, book[ids[k] := Lookup(was, ids[k]).(closing := Released)], ids[..k + 1], claimed)
  {
    assert ids[k] !in ids[..k];
    assert ids[..k + 1] == ids[..k] + [ids[k]];
  }

  lemma DeadExactly(was: Book, refreshed: Book, log: seq<Event>, dead: seq<Id>, now: Instant)
    requires Durable(State(refreshed, Fold(log).jobOrg), log)
    requires forall id :: id != "" ==> (Lookup(refreshed, id).claimed <==> ClaimLogged(log, id))
    requires forall id :: Lookup(refreshed, id) == Lookup(was, id).(claimed := Lookup(refreshed, id).claimed)
    requires forall id :: id in dead <==>
               && id in refreshed && IsOpen(refreshed[id]) && !refreshed[id].claimed
               && refreshed[id].hold.expiresAt != ZERO_TIME && refreshed[id].hold.expiresAt <= now
    ensures forall id :: id in dead <==> ProvablyDead(Lookup(was, id), log, id, now)
    ensures forall id :: id in dead ==> id != "" && IsOpen(Lookup(refreshed, id))
  {
    NoEmptyId(log);
    assert SameEntry(Lookup(refreshed, ""), Lookup(Fold(log).book, ""));
    forall id ensures id in dead <==> ProvablyDead(Lookup(was, id), log, id, now) {
      assert Lookup(refreshed, id) == Lookup(was, id).(claimed := Lookup(refreshed, id).claimed);
    }
  }

  // A restart makes no hold sweepable, and loses only those that expired by the epoch.
  lemma RestartKeepsDead(s: State, log: seq<Event>, id: Id, now: Instant)
    requires Durable(s, log)
    ensures ProvablyDead(Lookup(Fold(log).book, id), log, id, now) <==>
              ProvablyDead(Lookup(s.book, id), log, id, now) && Lookup(s.book, id).hold.expiresAt >= SECOND
  {
    assert SameEntry(Lookup(s.book, id), Lookup(Fold(log).book, id));
  }

  // By the time of the reservation, then by the request.
  function OlderFirst(book: Book): (Id, Id) -> bool {
    (a, b) =>
      var x, y := Lookup(book, a).hold.reservedAt, Lookup(book, b).hold.reservedAt;
      x < y || (x == y && StringLe(a, b))
  }

  lemma OlderRanks(book: Book)
    ensures Ranking(OlderFirst(book))
  {
    StringOrder();
  }

  lemma SortDistinct(ids: seq<Id>, le: (Id, Id) -> bool)
    requires Distinct(ids) && Ranking(le)
    ensures Distinct(Sort(ids, le)) && Sorted(Sort(ids, le), le)
    ensures forall id :: id in Sort(ids, le) <==> id in ids
  {
    var sorted := Sort(ids, le);
    SortKeeps(ids, le);
    forall id ensures id in sorted <==> id in ids {
      assert id in multiset(sorted) <==> id in multiset(ids);
    }
    forall i, j | 0 <= i < j < |sorted| ensures sorted[i] != sorted[j] {
      DistinctCount(ids, sorted[i]);
      if sorted[i] == sorted[j] {
        TwiceCounted(sorted, i, j);
      }
    }
  }

  lemma TwiceCounted(ids: seq<Id>, i: nat, j: nat)
    requires i < j < |ids| && ids[i] == ids[j]
    ensures multiset(ids)[ids[i]] >= 2
  {
    assert ids == ids[..j] + [ids[j]] + ids[j + 1..];
    assert ids[..j][i] == ids[i];
    assert ids[i] in multiset(ids[..j]);
    assert multiset(ids) == multiset(ids[..j]) + multiset{ids[j]} + multiset(ids[j + 1..]);
  }

  // Moving one entry from the rest to the counted part.
  lemma Counted(book: Book, rest: set<Id>, id: Id, slice: Slice)
    requires id in rest && rest <= book.Keys
    ensures Total(book - (rest - {id}), slice) == Total(book - rest, slice) + Worth(book[id], slice)
  {
    assert book - (rest - {id}) == (book - rest)[id := book[id]];
    TotalUpdate(book - rest, slice, id, book[id]);
  }
}
