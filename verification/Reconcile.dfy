// The boot and ticker reconciliation of claimed holds against the sidecar's durable records
// (daemon/cmd/snapfall/main.go, daemon/internal/h3/h3.go).
module Reconcile {
  import opened Wrappers
  import opened Policy
  import opened Budget
  import opened BudgetLedger
  import opened Ordering
  import opened Decimals

  // What a status poll yields: the "not found" code, any other failure, or a decoded reply.
  datatype Answer = NotFound | Failure | Reply(state: string, amountPaid: string)

  predicate Settled(state: string) {
    state == "DELIVERED" || state == "SETTLED"
  }

  predicate Unresolved(state: string) {
    state == "SIGNED" || state == "SUBMITTED" || state == "RECONCILING"
  }

  predicate Failed(state: string) {
    state == "FAILED" || state == "EXPIRED"
  }

  // A base-10 non-negative integer with no sign and no leading zero, within int64.
  function ParseAtomicMicros(t: string): Option<int> {
    if t == "" || !AllDigits(t) || (t[0] == '0' && t != "0") then None
    else if Value(t) > MAX_INT64 then None
    else Some(Value(t))
  }

  lemma {:induction false} CanonicalDigits(t: string)
    requires t != "" && AllDigits(t) && (t[0] == '0' ==> t == "0")
    ensures Digits(Value(t)) == t
  {
    var init, last := t[..|t| - 1], t[|t| - 1];
    ValueAppend(init, last);
    assert t == init + [last];
    if init != "" {
      assert init[0] == t[0];
      CanonicalDigits(init);
      LeadingDigit(init);
      assert Value(t) / 10 == Value(init) && Value(t) % 10 == DigitValue(last);
    } else {
      assert Value("") == 0;
    }
  }

  lemma {:induction false} LeadingDigit(t: string)
    requires t != "" && AllDigits(t) && t[0] != '0'
    ensures Value(t) > 0
  {
    var init := t[..|t| - 1];
    if init != "" {
      assert init[0] == t[0];
      LeadingDigit(init);
    }
  }

  lemma {:induction false} DigitsCanonical(n: nat)
    ensures Digits(n)[0] == '0' ==> n == 0
  {
    if n >= 10 {
      DigitsCanonical(n / 10);
      assert Digits(n)[0] == Digits(n / 10)[0];
    }
  }

  // It reads exactly the texts an int64 of micros prints as.
  lemma AtomicMicrosExact(t: string, n: int)
    ensures ParseAtomicMicros(t) == Some(n) <==> 0 <= n <= MAX_INT64 && t == Decimal(n)
  {
    if ParseAtomicMicros(t) == Some(n) {
      CanonicalDigits(t);
    }
    if 0 <= n <= MAX_INT64 && t == Decimal(n) {
      DigitsValue(n);
      DigitsCanonical(n);
      assert n == 0 ==> t == "0";
    }
  }

  // ----- One hold -----

  // What the loop does to a hold it finds in `found`, and how it lists it if it still stands.
  function Resolve(found: Closing, answer: Answer, appended: bool): (r: (Closing, Option<string>)) {
    match answer
    case NotFound => Give(found, appended, "")
    case Failure => (found, Some(""))
    case Reply(state, amountPaid) =>
      if Settled(state) then
        match ParseAtomicMicros(amountPaid)
        case None => (found, Some(state))
        case Some(paid) =>
          if found.Committed? then (found, None)
          else if found.Released? then (found, Some(state))
          else if appended then (Committed(paid), None)
          else (found, Some(state))
      else if Unresolved(state) then (found, Some(state))
      else if Failed(state) then Give(found, appended, state)
      else (found, Some(state))
  }

  function Give(found: Closing, appended: bool, state: string): (Closing, Option<string>) {
    if found != StillOpen then (found, None) else if appended then (Released, None) else (found, Some(state))
  }

  // A hold is left either closed or listed as open, never both and never neither, unless another
  // actor closed it first and the answer did not allow this one to.
  lemma ClosedOrListed(found: Closing, answer: Answer, appended: bool)
    ensures var (after, listed) := Resolve(found, answer, appended);
            && (after == StillOpen ==> listed.Some?)
            && (after != StillOpen && listed.Some? <==>
                && found != StillOpen
                && (match answer
                    case NotFound => false
                    case Failure => true
                    case Reply(state, amountPaid) =>
                      !Failed(state) && !(Settled(state) && ParseAtomicMicros(amountPaid).Some? && found.Committed?)))
  {
  }

  predicate Says(answer: Answer, first: string, second: string) {
    answer.Reply? && (answer.state == first || answer.state == second)
  }

  // An open hold is released exactly on a proof that nothing settled, committed exactly on a
  // readable settlement at the amount it prints, and otherwise stands and is listed; so it is
  // listed exactly when it stands.
  lemma ClosesSoundly(answer: Answer, appended: bool)
    ensures var (after, listed) := Resolve(StillOpen, answer, appended);
            && (after == Released <==> appended && (answer == NotFound || Says(answer, "FAILED", "EXPIRED")))
            && (forall paid :: after == Committed(paid) <==>
                  && appended && Says(answer, "DELIVERED", "SETTLED")
                  && 0 <= paid <= MAX_INT64 && answer.amountPaid == Decimal(paid))
            && (after == StillOpen <==> listed.Some?)
            && (listed.Some? ==> listed.value == if answer.Reply? then answer.state else "")
            && (Says(answer, "SIGNED", "SUBMITTED") || Says(answer, "RECONCILING", "RECONCILING") ==> after == StillOpen)
  {
    forall paid ensures Resolve(StillOpen, answer, appended).0 == Committed(paid) <==>
                          && appended && Says(answer, "DELIVERED", "SETTLED")
                          && 0 <= paid <= MAX_INT64 && answer.amountPaid == Decimal(paid)
    {
      if answer.Reply? { AtomicMicrosExact(answer.amountPaid, paid); }
    }
  }

  // ----- The loop -----

  // Another actor's closing of a hold, landing while a poll is out.
  method Meanwhile(led: Ledger, id: Id, closing: Closing)
    requires led.Valid() && id != "" && id in led.book && IsOpen(led.book[id])
    requires closing.Committed? ==> closing.paid >= 0
    modifies led
    ensures led.Valid()
    ensures led.book == old(led.book)[id := old(led.book)[id].(closing := closing)]
  {
    match closing {
      case StillOpen => assert led.book == led.book[id := led.book[id].(closing := closing)];
      case Committed(paid) => var _ := led.Commit(id, paid, true);
      case Released => var _ := led.Release(id, true);
    }
  }

  // One turn of the loop, on a hold as it now stands.
  method ResolveHold(led: Ledger, id: Id, answer: Answer, appended: bool) returns (listed: Option<string>)
    requires led.Valid() && id != "" && id in led.book && led.book[id].reserved
    modifies led
    ensures led.Valid()
    ensures var (after, said) := Resolve(old(led.book)[id].closing, answer, appended);
            && led.book == old(led.book)[id := old(led.book)[id].(closing := after)] && listed == said
  {
    assert led.book == led.book[id := led.book[id]];
    assert led.book[id] == led.book[id].(closing := led.book[id].closing);
    match answer {
      case NotFound =>
        var r := led.Release(id, appended);
        return if r == Done then None else Some("");
      case Failure => return Some("");
      case Reply(state, amountPaid) =>
        if Settled(state) {
          var paid := ParseAtomicMicros(amountPaid);
          if paid.None? {
            return Some(state);
          }
          var r := led.Commit(id, paid.value, appended);
          return if r == Done then None else Some(state);
        }
        if Unresolved(state) {
          return Some(state);
        }
        if Failed(state) {
          var r := led.Release(id, appended);
          return if r == Done then None else Some(state);
        }
        return Some(state);
    }
  }

  // One turn on an unresolved hold, which another actor may have closed by then.
  method Turn(led: Ledger, id: Id, answer: Answer, appended: bool, meanwhile: Closing) returns (listed: Option<string>)
    requires led.Valid() && id != "" && id in led.book && IsOpen(led.book[id])
    requires meanwhile.Committed? ==> meanwhile.paid >= 0
    modifies led
    ensures led.Valid()
    ensures var (after, said) := Resolve(meanwhile, answer, appended);
            && led.book == old(led.book)[id := old(led.book)[id].(closing := after)] && listed == said
  {
    Meanwhile(led, id, meanwhile);
    listed := ResolveHold(led, id, answer, appended);
  }

  method ListAll(ids: seq<Id>) returns (listed: map<Id, string>)
    ensures forall id :: id in ids <==> id in listed
    ensures forall id :: id in listed ==> listed[id] == ""
  {
    listed := map[];
    for k := 0 to |ids|
      invariant forall id :: id in ids[..k] <==> id in listed
      invariant forall id :: id in listed ==> listed[id] == ""
    {
      listed := listed[ids[k] := ""];
    }
    assert ids[..|ids|] == ids;
  }

  // What the loop has made of one hold.
  predicate Resolved(was: Entry, now: Entry, listed: map<Id, string>, id: Id, answer: Answer, appended: bool, found: Closing) {
    var (after, said) := Resolve(found, answer, appended);
    && now == was.(closing := after)
    && (id in listed <==> said.Some?) && (said.Some? ==> listed[id] == said.value)
  }

  // The loop after the given holds: each is as its own answer left it, nothing else has moved.
  ghost predicate Progress(was: Book, book: Book, done: seq<Id>, listed: map<Id, string>,
                           answer: Id -> Answer, appended: Id -> bool, meanwhile: Id -> Closing) {
    && book.Keys == was.Keys && listed.Keys <= was.Keys
    && forall id :: id in was ==>
         if id in done then Resolved(was[id], book[id], listed, id, answer(id), appended(id), meanwhile(id))
         else book[id] == was[id] && id !in listed
  }

  lemma TurnProgresses(was: Book, book: Book, ids: seq<Id>, k: nat, listed: map<Id, string>,
                       answer: Id -> Answer, appended: Id -> bool, meanwhile: Id -> Closing)
    requires k < |ids| && Distinct(ids) && ids[k] in was
    requires Progress(was, book, ids[..k], listed, answer, appended, meanwhile)
    ensures ids[k] in book && book[ids[k]] == was[ids[k]]
    ensures var id := ids[k];
            var (after, said) := Resolve(meanwhile(id), answer(id), appended(id));
            Progress(was, book[id := was[id].(closing := after)], ids[..k + 1],
                     if said.Some? then listed[id := said.value] else listed, answer, appended, meanwhile)
  {
    assert ids[k] !in ids[..k];
    assert ids[..k + 1] == ids[..k] + [ids[k]];
  }

  // With no lane every claimed hold stands. With one, each is resolved by the answer for its own
  // persisted payment id; `meanwhile` is how another actor left it by then. A hold nobody else
  // closed ends open exactly when it is listed.
  method ReconcileUnresolved(led: Ledger, lane: Option<Id -> Answer>, appended: Id -> bool, meanwhile: Id -> Closing)
    returns (listed: map<Id, string>)
    requires led.Valid() && "" !in led.book
    requires forall id :: meanwhile(id).Committed? ==> meanwhile(id).paid >= 0
    modifies led
    ensures led.Valid() && led.book.Keys == old(led.book).Keys
    ensures forall id :: id in old(led.book) ==>
              var e := old(led.book)[id];
              if !IsOpen(e) || !e.claimed then led.book[id] == e && id !in listed
              else if lane.None? then led.book[id] == e && id in listed && listed[id] == ""
              else Resolved(e, led.book[id], listed, id, lane.value(id), appended(id), meanwhile(id))
    ensures listed.Keys <= old(led.book).Keys
    ensures forall id :: id in old(led.book) && old(led.book)[id].claimed && IsOpen(old(led.book)[id]) ==>
              && (IsOpen(led.book[id]) ==> id in listed)
              && (lane.None? || meanwhile(id) == StillOpen ==> (IsOpen(led.book[id]) <==> id in listed))
  {
    var ids := led.Unresolved();
    if lane.None? {
      listed := ListAll(ids);
      return;
    }
    listed := map[];
    ghost var was := led.book;
    for k := 0 to |ids|
      invariant led.Valid()
      invariant Progress(was, led.book, ids[..k], listed, lane.value, appended, meanwhile)
    {
      var id := ids[k];
      TurnProgresses(was, led.book, ids, k, listed, lane.value, appended, meanwhile);
      var said := Turn(led, id, lane.value(id), appended(id), meanwhile(id));
      if said.Some? {
        listed := listed[id := said.value];
      }
    }
    assert ids[..|ids|] == ids;
    forall id | id in was && was[id].claimed && IsOpen(was[id]) && meanwhile(id) == StillOpen
      ensures IsOpen(led.book[id]) <==> id in listed
    {
      ClosedOrListed(StillOpen, lane.value(id), appended(id));
    }
  }
}
