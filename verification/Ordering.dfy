// Sorting under a ranking: what a library sort promises, and when the promise has one answer.
module Ordering {
  ghost predicate Ranking<T(!new)>(le: (T, T) -> bool) {
    && (forall a, b :: le(a, b) || le(b, a))
    && (forall a, b, c :: le(a, b) && le(b, c) ==> le(a, c))
  }

  // Members that rank alike are the same.
  predicate Strict<T(==)>(xs: seq<T>, le: (T, T) -> bool) {
    forall a, b :: a in xs && b in xs && le(a, b) && le(b, a) ==> a == b
  }

  predicate Sorted<T>(xs: seq<T>, le: (T, T) -> bool) {
    forall i, j :: 0 <= i < j < |xs| ==> le(xs[i], xs[j])
  }

  predicate Distinct<T(==)>(xs: seq<T>) {
    forall i, j :: 0 <= i < j < |xs| ==> xs[i] != xs[j]
  }

  function Insert<T>(x: T, xs: seq<T>, le: (T, T) -> bool): seq<T> {
    if xs == [] || le(x, xs[0]) then [x] + xs else [xs[0]] + Insert(x, xs[1..], le)
  }

  function Sort<T>(xs: seq<T>, le: (T, T) -> bool): seq<T> {
    if xs == [] then [] else Insert(xs[0], Sort(xs[1..], le), le)
  }

  lemma {:induction false} InsertPermutes<T>(x: T, xs: seq<T>, le: (T, T) -> bool)
    ensures multiset(Insert(x, xs, le)) == multiset{x} + multiset(xs)
  {
    if xs != [] && !le(x, xs[0]) {
      InsertPermutes(x, xs[1..], le);
      assert xs == [xs[0]] + xs[1..];
    }
  }

  lemma {:induction false} InsertMembers<T>(x: T, xs: seq<T>, le: (T, T) -> bool)
    ensures forall k :: 0 <= k < |Insert(x, xs, le)| ==> Insert(x, xs, le)[k] == x || Insert(x, xs, le)[k] in xs
  {
    if xs != [] && !le(x, xs[0]) {
      InsertMembers(x, xs[1..], le);
    }
  }

  lemma {:induction false} InsertSorts<T(!new)>(x: T, xs: seq<T>, le: (T, T) -> bool)
    requires Ranking(le) && Sorted(xs, le)
    ensures Sorted(Insert(x, xs, le), le)
  {
    if xs != [] && !le(x, xs[0]) {
      InsertSorts(x, xs[1..], le);
      InsertMembers(x, xs[1..], le);
    }
  }

  lemma {:induction false} SortKeeps<T(!new)>(xs: seq<T>, le: (T, T) -> bool)
    requires Ranking(le)
    ensures Sorted(Sort(xs, le), le) && multiset(Sort(xs, le)) == multiset(xs)
  {
    if xs != [] {
      SortKeeps(xs[1..], le);
      InsertPermutes(xs[0], Sort(xs[1..], le), le);
      InsertSorts(xs[0], Sort(xs[1..], le), le);
      assert xs == [xs[0]] + xs[1..];
    }
  }

  lemma FirstIsLeast<T(!new)>(xs: seq<T>, x: T, le: (T, T) -> bool)
    requires Ranking(le) && Sorted(xs, le) && x in xs
    ensures le(xs[0], x)
  {
  }

  lemma SameFirst<T(!new)>(xs: seq<T>, ys: seq<T>, le: (T, T) -> bool)
    requires Ranking(le) && Sorted(xs, le) && Sorted(ys, le) && Strict(xs, le) && multiset(xs) == multiset(ys) && xs != []
    ensures ys != [] && xs[0] == ys[0]
  {
    assert xs[0] in multiset(ys) && ys != [];
    assert ys[0] in multiset(xs);
    FirstIsLeast(xs, ys[0], le);
    FirstIsLeast(ys, xs[0], le);
  }

  lemma DropFirst<T>(xs: seq<T>)
    requires xs != []
    ensures multiset(xs[1..]) == multiset(xs) - multiset{xs[0]}
  {
    assert xs == [xs[0]] + xs[1..];
  }

  // A collection whose members all rank apart has one sorted arrangement.
  lemma {:induction false} SortedUnique<T(!new)>(xs: seq<T>, ys: seq<T>, le: (T, T) -> bool)
    requires Ranking(le) && Sorted(xs, le) && Sorted(ys, le) && Strict(xs, le) && multiset(xs) == multiset(ys)
    ensures xs == ys
  {
    if xs == [] {
      assert |multiset(ys)| == 0;
    } else {
      SameFirst(xs, ys, le);
      DropFirst(xs);
      DropFirst(ys);
      SortedUnique(xs[1..], ys[1..], le);
      assert xs == [xs[0]] + xs[1..] && ys == [ys[0]] + ys[1..];
    }
  }

  lemma {:induction false} CountDistinct<T>(xs: seq<T>)
    ensures |set x | x in xs| <= |xs|
    ensures |set x | x in xs| == |xs| <==> Distinct(xs)
  {
    if xs != [] {
      var rest := xs[1..];
      CountDistinct(rest);
      var all, tail := set x | x in xs, set x | x in rest;
      assert xs == [xs[0]] + rest;
      assert all == {xs[0]} + tail;
      assert xs[0] in rest ==> all == tail;
      DistinctTail(xs);
    }
  }

  lemma DistinctTail<T>(xs: seq<T>)
    requires xs != []
    ensures Distinct(xs) <==> Distinct(xs[1..]) && xs[0] !in xs[1..]
  {
    var rest := xs[1..];
    if Distinct(xs) {
      assert forall k :: 0 <= k < |rest| ==> rest[k] == xs[k + 1];
    }
    if Distinct(rest) && xs[0] !in rest {
      forall i, j | 0 <= i < j < |xs| ensures xs[i] != xs[j] {
        assert xs[j] == rest[j - 1];
        if i > 0 { assert xs[i] == rest[i - 1]; }
      }
    }
  }

  lemma {:induction false} DistinctSameMultiset<T>(xs: seq<T>, ys: seq<T>)
    requires Distinct(xs) && Distinct(ys) && forall x :: x in xs <==> x in ys
    ensures multiset(xs) == multiset(ys)
  {
    forall x ensures multiset(xs)[x] == multiset(ys)[x] {
      DistinctCount(xs, x);
      DistinctCount(ys, x);
    }
  }

  lemma {:induction false} DistinctCount<T>(xs: seq<T>, x: T)
    requires Distinct(xs)
    ensures multiset(xs)[x] == if x in xs then 1 else 0
  {
    if xs != [] {
      assert xs == [xs[0]] + xs[1..];
      assert xs[0] !in xs[1..];
      DistinctCount(xs[1..], x);
    }
  }

  // Sorting a list of as many names as a strictly ordered list of the same names yields that list.
  lemma SortIs<T(!new)>(xs: seq<T>, ys: seq<T>, le: (T, T) -> bool)
    requires Ranking(le) && Sorted(ys, le) && Distinct(ys) && Strict(ys, le)
    requires |xs| == |ys| && forall x :: x in xs <==> x in ys
    ensures Distinct(xs) && Sort(xs, le) == ys
  {
    CountDistinct(xs);
    CountDistinct(ys);
    assert (set x | x in xs) == (set x | x in ys);
    DistinctSameMultiset(xs, ys);
    SortKeeps(xs, le);
    SortedUnique(ys, Sort(xs, le), le);
  }

  // ----- Strings in code-point order -----

  predicate StringLe(a: string, b: string) {
    a == "" || (b != "" && (a[0] < b[0] || (a[0] == b[0] && StringLe(a[1..], b[1..]))))
  }

  lemma {:induction false} StringLeTotal(a: string, b: string)
    ensures StringLe(a, b) || StringLe(b, a)
    ensures StringLe(a, b) && StringLe(b, a) ==> a == b
  {
    if a != "" && b != "" {
      StringLeTotal(a[1..], b[1..]);
      assert a == [a[0]] + a[1..] && b == [b[0]] + b[1..];
    }
  }

  lemma {:induction false} StringLeTransitive(a: string, b: string, c: string)
    requires StringLe(a, b) && StringLe(b, c)
    ensures StringLe(a, c)
  {
    if a != "" && a[0] == b[0] == c[0] {
      StringLeTransitive(a[1..], b[1..], c[1..]);
    }
  }

  lemma StringOrder()
    ensures Ranking(StringLe)
  {
    forall a, b ensures (StringLe(a, b) || StringLe(b, a)) && (StringLe(a, b) && StringLe(b, a) ==> a == b) {
      StringLeTotal(a, b);
    }
    forall a, b, c | StringLe(a, b) && StringLe(b, c) ensures StringLe(a, c) {
      StringLeTransitive(a, b, c);
    }
  }

  lemma StringStrict(xs: seq<string>)
    ensures Strict(xs, StringLe)
  {
    forall a, b | a in xs && b in xs && StringLe(a, b) && StringLe(b, a) ensures a == b {
      StringLeTotal(a, b);
    }
  }

  // `a` comes strictly before `b`: they agree on the first `k` characters, then `a` ends or is less.
  lemma {:induction false} Precedes(a: string, b: string, k: nat)
    requires k <= |a| && k < |b| && (forall j :: 0 <= j < k ==> a[j] == b[j])
    requires k == |a| || a[k] < b[k]
    ensures StringLe(a, b) && a != b
    decreases k
  {
    if k > 0 {
      Precedes(a[1..], b[1..], k - 1);
    } else if a != "" {
      assert a[0] != b[0];
    }
  }

  predicate Rises(xs: seq<string>, k: nat) {
    k + 1 < |xs| && StringLe(xs[k], xs[k + 1]) && xs[k] != xs[k + 1]
  }

  lemma {:induction false} ChainSorted(xs: seq<string>)
    requires forall k :: 0 <= k < |xs| - 1 ==> Rises(xs, k)
    ensures Sorted(xs, StringLe) && Distinct(xs)
  {
    forall i, j | 0 <= i < j < |xs| ensures StringLe(xs[i], xs[j]) && xs[i] != xs[j] {
      ChainAt(xs, i, j);
    }
  }

  lemma {:induction false} ChainAt(xs: seq<string>, i: nat, j: nat)
    requires i < j < |xs|
    requires forall k :: 0 <= k < |xs| - 1 ==> Rises(xs, k)
    ensures StringLe(xs[i], xs[j]) && xs[i] != xs[j]
    decreases j
  {
    assert Rises(xs, j - 1);
    if i + 1 < j {
      ChainAt(xs, i, j - 1);
      StringLeTransitive(xs[i], xs[j - 1], xs[j]);
      StringLeTotal(xs[j - 1], xs[j]);
    }
  }
}
