/** Shared value types: optional values and outcomes that may be refused; and the
  * few facts about counting that every protocol needs. */
module Prelude {
  datatype Option<+T> = None | Some(value: T)

  datatype Result<+T, +E> = Ok(value: T) | Err(error: E)

  lemma SubsetSize<T>(a: set<T>, b: set<T>)
    requires a <= b
    ensures |a| <= |b|
  {
    assert |b| == |a| + |b - a| by { assert b == a + (b - a); }
  }

  lemma ProperSubset<T>(a: set<T>, b: set<T>, x: T)
    requires a <= b && x in b && x !in a
    ensures |a| < |b|
  {
    assert b == a + (b - a) && x in b - a;
    assert |b| == |a| + |b - a|;
  }

  lemma SomethingLeft<T>(a: set<T>, b: set<T>)
    requires a <= b && |a| < |b|
    ensures exists x :: x in b && x !in a
  {
    SubsetSize(b - a, b);
    assert b == a + (b - a);
    var x :| x in b - a;
  }

  function Below(n: nat): (r: set<nat>)
    ensures forall i: nat :: i in r <==> i < n
  {
    if n == 0 then {} else Below(n - 1) + {n - 1}
  }

  lemma {:induction false} BelowSize(n: nat)
    ensures |Below(n)| == n
  {
    if n > 0 { BelowSize(n - 1); }
  }

  /** Between `lo` and `hi` there are that many. */
  lemma {:induction false} WithinSize(s: set<nat>, lo: nat, hi: nat)
    requires lo <= hi && forall i :: i in s ==> lo <= i < hi
    ensures |s| <= hi - lo
    decreases hi - lo
  {
    if lo == hi { assert s == {}; } else { WithinSize(s - {lo}, lo + 1, hi); }
  }

  predicate Distinct<T(==)>(s: seq<T>) { forall i, j :: 0 <= i < j < |s| ==> s[i] != s[j] }

  ghost function SetOf<T>(s: seq<T>): set<T> { set x | x in s }

  lemma {:induction false} SetOfDistinct<T>(s: seq<T>)
    requires Distinct(s)
    ensures |SetOf(s)| == |s|
    decreases |s|
  {
    if s != [] {
      var t, x := s[..|s| - 1], s[|s| - 1];
      SetOfDistinct(t);
      assert s == t + [x] && x !in t;
      assert forall y :: y in s <==> y in t || y == x;
      assert SetOf(s) == SetOf(t) + {x};
    }
  }

  lemma Regroup<T>(a: seq<T>, b: seq<T>, c: seq<T>)
    ensures (a + b) + c == a + (b + c)
  {
  }

  /** In a run of states and the steps between them, what holds now and did not at the
    * start, some step began, and it has held ever since. */
  lemma {:induction false} TracedBack<S, T>(states: seq<S>, steps: seq<T>, n: nat, holds: S -> bool,
                                            begins: (S, T) -> bool)
      returns (k: nat)
    requires |states| == |steps| + 1 && n < |states| && holds(states[n]) && !holds(states[0])
    requires forall m :: 0 <= m < n && holds(states[m + 1]) ==> holds(states[m]) || begins(states[m], steps[m])
    ensures k < n && begins(states[k], steps[k])
    ensures forall m :: k < m <= n ==> holds(states[m])
  {
    if holds(states[n - 1]) { k := TracedBack(states, steps, n - 1, holds, begins); } else { k := n - 1; }
  }
}
