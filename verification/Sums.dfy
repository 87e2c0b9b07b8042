/** Finite sums over maps, the way the source ranges over a Go map. */
module Sums {

  /** Some key of a nonempty map: the choice a range over a Go map leaves open. */
  ghost function AnyKey<V>(m: map<int, V>): (k: int)
    requires m != map[]
    ensures k in m
  {
    assert (forall k :: k !in m) ==> m == map[];
    var k :| k in m;
    k
  }

  ghost function MapSum(m: map<int, nat>): nat
    decreases |m|
  {
    if m == map[] then 0
    else
      var k := AnyKey(m);
      m[k] + MapSum(m - {k})
  }

  /** The sum does not depend on the order in which keys are visited. */
  lemma {:induction false} MapSumAt(m: map<int, nat>, k: int)
    requires k in m
    ensures MapSum(m) == m[k] + MapSum(m - {k})
    decreases |m|
  {
    var c := AnyKey(m);
    if c != k {
      MapSumAt(m - {c}, k);
      MapSumAt(m - {k}, c);
      assert m - {c} - {k} == m - {k} - {c};
    }
  }

  function Get(m: map<int, nat>, k: int): nat {
    if k in m then m[k] else 0
  }

  /** m[k]++ on a Go map. */
  function Bump(m: map<int, nat>, k: int): map<int, nat> {
    m[k := Get(m, k) + 1]
  }

  lemma MapSumBump(m: map<int, nat>, k: int)
    ensures MapSum(Bump(m, k)) == MapSum(m) + 1
  {
    var n := Bump(m, k);
    MapSumAt(n, k);
    if k in m {
      MapSumAt(m, k);
      assert n - {k} == m - {k};
    } else {
      assert n - {k} == m;
    }
  }

  /** The next key of a range over a Go map: any key that was not visited yet. */
  method NextKey(todo: set<int>) returns (k: int)
    requires todo != {}
    ensures k in todo
  {
    assert (forall x :: x !in todo) ==> todo == {};
    k :| k in todo;
  }

  // ---- sums over sequences ----

  ghost function SumOf<T>(f: T -> nat, s: seq<T>): nat {
    if s == [] then 0 else SumOf(f, s[..|s| - 1]) + f(s[|s| - 1])
  }

  lemma {:induction false} SumOfUpdate<T>(f: T -> nat, s: seq<T>, i: nat, x: T)
    requires i < |s|
    ensures SumOf(f, s[i := x]) + f(s[i]) == SumOf(f, s) + f(x)
  {
    var n := |s| - 1;
    if i < n {
      SumOfUpdate(f, s[..n], i, x);
      assert s[i := x][..n] == s[..n][i := x];
    } else {
      assert s[i := x][..n] == s[..n];
    }
  }

  lemma {:induction false} SumOfAt<T>(f: T -> nat, s: seq<T>, i: nat)
    requires i < |s|
    ensures f(s[i]) <= SumOf(f, s)
  {
    if i < |s| - 1 { SumOfAt(f, s[..|s| - 1], i); }
  }

  lemma {:induction false} SumOfAtTwo<T>(f: T -> nat, s: seq<T>, i: nat, j: nat)
    requires i < j < |s|
    ensures f(s[i]) + f(s[j]) <= SumOf(f, s)
  {
    if j < |s| - 1 { SumOfAtTwo(f, s[..|s| - 1], i, j); } else { SumOfAt(f, s[..j], i); }
  }

  lemma {:induction false} SumOfZero<T>(f: T -> nat, s: seq<T>)
    requires forall i | 0 <= i < |s| :: f(s[i]) == 0
    ensures SumOf(f, s) == 0
  {
    if s != [] { SumOfZero(f, s[..|s| - 1]); }
  }

  lemma {:induction false} SumOfPositive<T>(f: T -> nat, s: seq<T>) returns (i: nat)
    requires SumOf(f, s) > 0
    ensures i < |s| && f(s[i]) > 0
  {
    if f(s[|s| - 1]) > 0 { i := |s| - 1; } else { i := SumOfPositive(f, s[..|s| - 1]); }
  }

  lemma {:induction false} SumOfBelow<T, U>(f: T -> nat, s: seq<T>, g: U -> nat, t: seq<U>)
    requires |s| == |t| && forall i | 0 <= i < |s| :: f(s[i]) <= g(t[i])
    ensures SumOf(f, s) <= SumOf(g, t)
  {
    if s != [] { SumOfBelow(f, s[..|s| - 1], g, t[..|s| - 1]); }
  }
}
