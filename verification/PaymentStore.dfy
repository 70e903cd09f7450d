// The sidecar's durable payment records (sidecar/src/store.ts): a map in insertion order, written
// whole to a temporary file and renamed into place, reloaded at start.
module PaymentStore {
  import opened Wrappers

  datatype PaymentState = SIGNED | SUBMITTED | DELIVERED | RECONCILING | SETTLED | FAILED | EXPIRED

  datatype Record = Record(paymentId: string, nonce: string, intentHash: string, state: PaymentState)

  // What a file holds: nothing, a record array, some other document, or text that will not parse.
  datatype Document = Absent | Records(rs: seq<Record>) | NotAnArray | Torn

  // ----- A map in insertion order -----

  predicate Keyed(rs: seq<Record>) {
    forall i, j :: 0 <= i < j < |rs| ==> rs[i].nonce != rs[j].nonce
  }

  predicate Has(rs: seq<Record>, nonce: string) {
    exists k :: 0 <= k < |rs| && rs[k].nonce == nonce
  }

  function Get(rs: seq<Record>, nonce: string): Option<Record> {
    if rs == [] then None else if rs[0].nonce == nonce then Some(rs[0]) else Get(rs[1..], nonce)
  }

  // A present key keeps its place; a new one goes last.
  function Put(rs: seq<Record>, rec: Record): seq<Record> {
    if rs == [] then [rec]
    else if rs[0].nonce == rec.nonce then [rec] + rs[1..]
    else [rs[0]] + Put(rs[1..], rec)
  }

  lemma {:induction false} PutNonces(rs: seq<Record>, rec: Record)
    ensures forall n :: Has(Put(rs, rec), n) <==> n == rec.nonce || Has(rs, n)
  {
    if rs == [] {
      assert forall n :: Has([rec], n) ==> n == rec.nonce;
      assert [rec][0].nonce == rec.nonce;
    } else if rs[0].nonce == rec.nonce {
      HasFront(rec, rs[1..]);
      HasFront(rs[0], rs[1..]);
      assert rs == [rs[0]] + rs[1..];
    } else {
      PutNonces(rs[1..], rec);
      HasFront(rs[0], Put(rs[1..], rec));
      HasFront(rs[0], rs[1..]);
      assert rs == [rs[0]] + rs[1..];
    }
  }

  lemma HasFront(first: Record, rest: seq<Record>)
    ensures forall n :: Has([first] + rest, n) <==> n == first.nonce || Has(rest, n)
  {
    var all := [first] + rest;
    forall n ensures Has(all, n) <==> n == first.nonce || Has(rest, n) {
      if n == first.nonce { assert all[0].nonce == n; }
      if Has(rest, n) {
        var k :| 0 <= k < |rest| && rest[k].nonce == n;
        assert all[k + 1].nonce == n;
      }
      if Has(all, n) && n != first.nonce {
        var k :| 0 <= k < |all| && all[k].nonce == n;
        assert rest[k - 1].nonce == n;
      }
    }
  }

  // Setting a key reads back at that key, leaves every other key alone, and keeps the map a map.
  lemma {:induction false} PutGet(rs: seq<Record>, rec: Record)
    ensures Get(Put(rs, rec), rec.nonce) == Some(rec)
    ensures forall n :: n != rec.nonce ==> Get(Put(rs, rec), n) == Get(rs, n)
  {
    if rs != [] && rs[0].nonce != rec.nonce {
      PutGet(rs[1..], rec);
    }
  }

  lemma {:induction false} PutKeyed(rs: seq<Record>, rec: Record)
    requires Keyed(rs)
    ensures Keyed(Put(rs, rec))
  {
    if rs != [] && rs[0].nonce != rec.nonce {
      PutKeyed(rs[1..], rec);
      PutNonces(rs[1..], rec);
      var tail := Put(rs[1..], rec);
      forall j | 0 <= j < |tail| ensures tail[j].nonce != rs[0].nonce {
        assert Has(tail, tail[j].nonce);
        if Has(rs[1..], tail[j].nonce) {
          var k :| 0 <= k < |rs[1..]| && rs[1..][k].nonce == tail[j].nonce;
        }
      }
    }
  }

  // Loading an array sets its records in order.
  function Loaded(arr: seq<Record>): seq<Record> {
    if arr == [] then [] else Put(Loaded(arr[..|arr| - 1]), arr[|arr| - 1])
  }

  lemma {:induction false} PutFresh(rs: seq<Record>, rec: Record)
    requires !Has(rs, rec.nonce)
    ensures Put(rs, rec) == rs + [rec]
  {
    if rs != [] {
      assert rs == [rs[0]] + rs[1..];
      HasFront(rs[0], rs[1..]);
      PutFresh(rs[1..], rec);
    }
  }

  // What a map wrote, it loads.
  lemma {:induction false} LoadedIsWritten(rs: seq<Record>)
    requires Keyed(rs)
    ensures Loaded(rs) == rs
  {
    if rs != [] {
      var init := rs[..|rs| - 1];
      LoadedIsWritten(init);
      assert !Has(init, rs[|rs| - 1].nonce);
      PutFresh(init, rs[|rs| - 1]);
    }
  }

  lemma {:induction false} LoadedKeyed(arr: seq<Record>)
    ensures Keyed(Loaded(arr))
  {
    if arr != [] {
      LoadedKeyed(arr[..|arr| - 1]);
      PutKeyed(Loaded(arr[..|arr| - 1]), arr[|arr| - 1]);
    }
  }

  // ----- The store -----

  // How far one persist gets before it throws or the process dies.
  datatype Reach = BeforeWrite | MidWrite | BeforeRename | Whole

  class PaymentStore {
    var byNonce: seq<Record>
    var file: Document
    var tmp: Document

    ghost predicate Valid()
      reads this
    {
      Keyed(byNonce)
    }

    constructor (file: Document)
      ensures Valid() && byNonce == [] && this.file == file
    {
      byNonce := [];
      this.file := file;
      tmp := Absent;
    }

    // A missing file is a fresh start; anything but a record array fails, so that no record is
    // silently dropped.
    method Load() returns (ok: bool)
      requires Valid() && byNonce == []
      modifies this`byNonce
      ensures Valid()
      ensures ok <==> file.Absent? || file.Records?
      ensures byNonce == if file.Records? then Loaded(file.rs) else []
    {
      match file {
        case Absent => return true;
        case Torn => return false;
        case NotAnArray => return false;
        case Records(arr) =>
          var i := 0;
          while i < |arr|
            invariant 0 <= i <= |arr|
            invariant byNonce == Loaded(arr[..i])
          {
            assert arr[..i + 1][..i] == arr[..i];
            byNonce := Put(byNonce, arr[i]);
            i := i + 1;
          }
          assert arr[..i] == arr;
          LoadedKeyed(arr);
          return true;
      }
    }

    // Wherever it stops, the file is the old document or the whole new one.
    method Persist(reach: Reach) returns (ok: bool)
      requires Valid()
      modifies this`file, this`tmp
      ensures Valid()
      ensures ok <==> reach.Whole?
      ensures file == if ok then Records(byNonce) else old(file)
    {
      if reach.BeforeWrite? {
        return false;
      }
      tmp := Torn;
      if reach.MidWrite? {
        return false;
      }
      tmp := Records(byNonce);
      if reach.BeforeRename? {
        return false;
      }
      file := tmp;
      tmp := Absent;
      return true;
    }

    // The record is in memory even when its persist throws.
    method Upsert(rec: Record, reach: Reach) returns (ok: bool)
      requires Valid()
      modifies this
      ensures Valid()
      ensures ok <==> reach.Whole?
      ensures byNonce == Put(old(byNonce), rec)
      ensures file == if ok then Records(byNonce) else old(file)
    {
      PutKeyed(byNonce, rec);
      byNonce := Put(byNonce, rec);
      ok := Persist(reach);
    }

    method GetByNonce(nonce: string) returns (r: Option<Record>)
      ensures r == Get(byNonce, nonce)
    {
      r := Get(byNonce, nonce);
    }

    // The first record with the id, in insertion order.
    method GetById(paymentId: string) returns (r: Option<Record>)
      ensures r.None? <==> forall k :: 0 <= k < |byNonce| ==> byNonce[k].paymentId != paymentId
      ensures r.Some? ==> r.value.paymentId == paymentId && r.value in byNonce
    {
      for k := 0 to |byNonce|
        invariant forall j :: 0 <= j < k ==> byNonce[j].paymentId != paymentId
      {
        if byNonce[k].paymentId == paymentId {
          return Some(byNonce[k]);
        }
      }
      return None;
    }
  }

  // The records a readable file stands for; no file yet stands for none.
  function OnDisk(file: Document): seq<Record> {
    if file.Records? then file.rs else []
  }

  // A process that stops anywhere inside a write and starts again holds either the records it had
  // made durable before or all of those it was writing.
  method RestartAfter(store: PaymentStore, rec: Record, reach: Reach) returns (again: PaymentStore)
    requires store.Valid() && (store.file.Absent? || (store.file.Records? && Keyed(store.file.rs)))
    modifies store
    ensures again.byNonce == OnDisk(old(store.file)) || again.byNonce == Put(old(store.byNonce), rec)
    ensures reach.Whole? ==> again.byNonce == Put(old(store.byNonce), rec)
  {
    PutKeyed(store.byNonce, rec);
    var _ := store.Upsert(rec, reach);
    again := new PaymentStore(store.file);
    var ok := again.Load();
    LoadedIsWritten(OnDisk(store.file));
  }
}
