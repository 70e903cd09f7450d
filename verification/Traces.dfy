// Running a list of steps from a state, for building concrete runs of a state machine.
module Traces {
  import opened Wrappers

  // Where a list of steps leads, if each is enabled in turn.
  ghost function After<S(!new), T(!new)>(next: (S, T) -> Option<S>, s: S, steps: seq<T>): Option<S>
    decreases |steps|
  {
    if steps == [] then Some(s)
    else
      match next(s, steps[0])
      case Some(mid) => After(next, mid, steps[1..])
      case None => None
  }

  ghost function Trace<S(!new), T(!new)>(next: (S, T) -> Option<S>, s: S, steps: seq<T>): (r: seq<S>)
    requires After(next, s, steps).Some?
    ensures |r| == |steps| + 1 && r[0] == s
    decreases |steps|
  {
    if steps == [] then [s] else [s] + Trace(next, next(s, steps[0]).value, steps[1..])
  }

  lemma {:induction false} TraceSteps<S(!new), T(!new)>(next: (S, T) -> Option<S>, s: S, steps: seq<T>)
    requires After(next, s, steps).Some?
    ensures var r := Trace(next, s, steps);
            && Some(r[|steps|]) == After(next, s, steps)
            && forall k :: 0 <= k < |steps| ==> next(r[k], steps[k]) == Some(r[k + 1])
    decreases |steps|
  {
    if steps != [] {
      var mid := next(s, steps[0]).value;
      TraceSteps(next, mid, steps[1..]);
      var r, tail := Trace(next, s, steps), Trace(next, mid, steps[1..]);
      forall k | 0 <= k < |steps| ensures next(r[k], steps[k]) == Some(r[k + 1]) {
        if k > 0 {
          assert r[k] == tail[k - 1] && r[k + 1] == tail[k] && steps[k] == steps[1..][k - 1];
        }
      }
    }
  }

  lemma {:induction false} Then<S(!new), T(!new)>(next: (S, T) -> Option<S>, s: S, a: seq<T>, mid: S, b: seq<T>)
    requires After(next, s, a) == Some(mid)
    ensures After(next, s, a + b) == After(next, mid, b)
    decreases |a|
  {
    if a == [] {
      assert a + b == b;
    } else {
      assert (a + b)[1..] == a[1..] + b;
      Then(next, next(s, a[0]).value, a[1..], mid, b);
    }
  }

  lemma ThenOnce<S(!new), T(!new)>(next: (S, T) -> Option<S>, s: S, a: seq<T>, mid: S, t: T, end: S)
    requires After(next, s, a) == Some(mid) && next(mid, t) == Some(end)
    ensures After(next, s, a + [t]) == Some(end)
  {
    Then(next, s, a, mid, [t]);
    assert [t][1..] == [];
    assert After(next, end, []) == Some(end);
  }
}
