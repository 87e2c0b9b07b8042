/** The latency window of browser.Metrics and what Snapshot computes from it. */
module Metrics {
  import opened Sums
  import P = PoolProtocol

  const MAX_SAMPLES: nat := 1000

  // ---- the window ----

  /** The window after one more sample. */
  function Record(window: seq<int>, d: int): seq<int> {
    (if |window| >= MAX_SAMPLES then window[1..] else window) + [d]
  }

  function RecordAll(window: seq<int>, ds: seq<int>): seq<int> {
    if ds == [] then window else Record(RecordAll(window, ds[..|ds| - 1]), ds[|ds| - 1])
  }

  /** The last samples of a history, at most as many as the window has room for. */
  function LastSamples(history: seq<int>): seq<int> {
    if |history| <= MAX_SAMPLES then history else history[|history| - MAX_SAMPLES..]
  }

  lemma RecordLatest(history: seq<int>, d: int)
    ensures Record(LastSamples(history), d) == LastSamples(history + [d])
  {
  }

  lemma {:induction false} WindowIs(ds: seq<int>)
    ensures RecordAll([], ds) == LastSamples(ds)
  {
    if ds != [] {
      var n := |ds| - 1;
      WindowIs(ds[..n]);
      RecordLatest(ds[..n], ds[n]);
      assert ds == ds[..n] + [ds[n]];
    }
  }

  /** Whatever was recorded, the window is the last 1000 samples of it. */
  lemma WindowIsLatest(ds: seq<int>)
    ensures RecordAll([], ds) == if |ds| <= 1000 then ds else ds[|ds| - 1000..]
  {
    WindowIs(ds);
  }

  // ---- sorting ----

  predicate Ascending(s: seq<int>) {
    forall i, j | 0 <= i < j < |s| :: s[i] <= s[j]
  }

  function Insert(s: seq<int>, x: int): seq<int> {
    if s == [] || s[|s| - 1] <= x then s + [x] else Insert(s[..|s| - 1], x) + [s[|s| - 1]]
  }

  /** What slices.SortFunc leaves in the copy of the window. */
  function Sorted(w: seq<int>): seq<int> {
    if w == [] then [] else Insert(Sorted(w[..|w| - 1]), w[|w| - 1])
  }

  lemma {:induction false} InsertBelow(s: seq<int>, x: int, hi: int)
    requires x <= hi && forall i | 0 <= i < |s| :: s[i] <= hi
    ensures forall i | 0 <= i < |Insert(s, x)| :: Insert(s, x)[i] <= hi
  {
    if s != [] && s[|s| - 1] > x { InsertBelow(s[..|s| - 1], x, hi); }
  }

  lemma {:induction false} InsertAscends(s: seq<int>, x: int)
    requires Ascending(s)
    ensures Ascending(Insert(s, x))
  {
    if s != [] && s[|s| - 1] > x {
      InsertAscends(s[..|s| - 1], x);
      InsertBelow(s[..|s| - 1], x, s[|s| - 1]);
    }
  }

  lemma {:induction false} InsertPermutes(s: seq<int>, x: int)
    ensures multiset(Insert(s, x)) == multiset(s) + multiset{x}
  {
    if s != [] && s[|s| - 1] > x {
      InsertPermutes(s[..|s| - 1], x);
      assert s == s[..|s| - 1] + [s[|s| - 1]];
    }
  }

  lemma {:induction false} SortedSorts(w: seq<int>)
    ensures Ascending(Sorted(w)) && multiset(Sorted(w)) == multiset(w) && |Sorted(w)| == |w|
  {
    if w != [] {
      var n := |w| - 1;
      SortedSorts(w[..n]);
      InsertAscends(Sorted(w[..n]), w[n]);
      InsertPermutes(Sorted(w[..n]), w[n]);
      assert w == w[..n] + [w[n]];
    }
    assert |multiset(Sorted(w))| == |multiset(w)|;
  }

  lemma LastIsMost(s: seq<int>, x: int)
    requires Ascending(s) && x in multiset(s)
    ensures s != [] && x <= s[|s| - 1]
  {
    var i :| 0 <= i < |s| && s[i] == x;
  }

  lemma WithoutLast(s: seq<int>)
    requires s != []
    ensures multiset(s) == multiset(s[..|s| - 1]) + multiset{s[|s| - 1]}
  {
    assert s == s[..|s| - 1] + [s[|s| - 1]];
  }

  lemma Cancel(a: multiset<int>, b: multiset<int>, x: int)
    requires a + multiset{x} == b + multiset{x}
    ensures a == b
  {
    forall y ensures a[y] == b[y] { assert (a + multiset{x})[y] == (b + multiset{x})[y]; }
  }

  lemma SameLast(s: seq<int>, t: seq<int>)
    requires Ascending(s) && Ascending(t) && multiset(s) == multiset(t) && s != []
    ensures |t| == |s| && s[|s| - 1] == t[|t| - 1]
    ensures multiset(s[..|s| - 1]) == multiset(t[..|t| - 1])
  {
    assert |multiset(s)| == |s| && |multiset(t)| == |t|;
    assert s[|s| - 1] in multiset(s) && t[|t| - 1] in multiset(t);
    LastIsMost(s, t[|t| - 1]);
    LastIsMost(t, s[|s| - 1]);
    WithoutLast(s);
    WithoutLast(t);
    Cancel(multiset(s[..|s| - 1]), multiset(t[..|t| - 1]), s[|s| - 1]);
  }

  /** There is only one way to sort, so any correct sort gives what Snapshot is proved to compute. */
  lemma {:induction false} SortedUnique(s: seq<int>, t: seq<int>)
    requires Ascending(s) && Ascending(t) && multiset(s) == multiset(t)
    ensures s == t
  {
    if s == [] {
      assert |multiset(t)| == |t|;
    } else {
      var n := |s| - 1;
      SameLast(s, t);
      SortedUnique(s[..n], t[..n]);
      assert s == s[..n] + [s[n]] && t == t[..n] + [t[n]];
    }
  }

  // ---- sums over samples ----

  function Total(f: int -> int, s: seq<int>): int {
    if s == [] then 0 else Total(f, s[..|s| - 1]) + f(s[|s| - 1])
  }

  function Self(): int -> int { x => x }

  /** Counts the samples that are at most v. */
  function AtMost(v: int): int -> int { x => if x <= v then 1 else 0 }

  /** Counts the samples that are at least v. */
  function AtLeast(v: int): int -> int { x => if x >= v then 1 else 0 }

  lemma {:induction false} TotalWithout(f: int -> int, s: seq<int>, i: nat)
    requires i < |s|
    ensures Total(f, s) == Total(f, s[..i] + s[i + 1..]) + f(s[i])
  {
    var n := |s| - 1;
    if i == n {
      assert s[..n] + s[n + 1..] == s[..n];
    } else {
      TotalWithout(f, s[..n], i);
      var rest := s[..i] + s[i + 1..];
      assert rest[..|rest| - 1] == s[..n][..i] + s[..n][i + 1..];
    }
  }

  lemma Without(s: seq<int>, i: nat)
    requires i < |s|
    ensures multiset(s) == multiset(s[..i] + s[i + 1..]) + multiset{s[i]}
  {
    assert s == s[..i] + [s[i]] + s[i + 1..];
  }

  /** A sum over the samples does not depend on their order. */
  lemma {:induction false} TotalPermuted(f: int -> int, s: seq<int>, t: seq<int>)
    requires multiset(s) == multiset(t)
    ensures Total(f, s) == Total(f, t)
  {
    assert |multiset(s)| == |s| && |multiset(t)| == |t|;
    if s != [] {
      var n := |s| - 1;
      assert s[n] in multiset(t);
      var i :| 0 <= i < |t| && t[i] == s[n];
      var rest := t[..i] + t[i + 1..];
      WithoutLast(s);
      Without(t, i);
      Cancel(multiset(s[..n]), multiset(rest), s[n]);
      TotalWithout(f, t, i);
      TotalPermuted(f, s[..n], rest);
    }
  }

  lemma {:induction false} TotalAbove(f: int -> int, s: seq<int>, lo: int)
    requires forall i | 0 <= i < |s| :: f(s[i]) >= lo
    ensures Total(f, s) >= |s| * lo
  {
    if s != [] {
      TotalAbove(f, s[..|s| - 1], lo);
      assert |s| * lo == (|s| - 1) * lo + lo;
    }
  }

  lemma {:induction false} TotalBelow(f: int -> int, s: seq<int>, hi: int)
    requires forall i | 0 <= i < |s| :: f(s[i]) <= hi
    ensures Total(f, s) <= |s| * hi
  {
    if s != [] {
      TotalBelow(f, s[..|s| - 1], hi);
      assert |s| * hi == (|s| - 1) * hi + hi;
    }
  }

  lemma {:induction false} TotalSplit(f: int -> int, s: seq<int>, t: seq<int>)
    ensures Total(f, s + t) == Total(f, s) + Total(f, t)
  {
    if t == [] {
      assert s + t == s;
    } else {
      var n := |t| - 1;
      TotalSplit(f, s, t[..n]);
      assert (s + t)[..|s + t| - 1] == s + t[..n];
    }
  }

  // ---- what Snapshot reports ----

  /** Go's integer division truncates toward zero. */
  function Quotient(x: int, n: int): int
    requires n > 0
  {
    if x >= 0 then x / n else -(-x / n)
  }

  lemma Scale(a: int, b: int, n: nat)
    ensures a <= b ==> a * n <= b * n
  {
    assert b * n - a * n == (b - a) * n;
    assert b >= a ==> (b - a) * n >= 0;
  }

  function Rank(n: nat, hundredths: nat): (i: nat)
    requires n > 0 && hundredths <= 100
    ensures i < n
  {
    Scale(hundredths, 100, n - 1);
    hundredths * (n - 1) / 100
  }

  lemma RankAscends(n: nat, p: nat, q: nat)
    requires n > 0 && p <= q <= 100
    ensures Rank(n, p) <= Rank(n, q)
  {
    Scale(p, q, n - 1);
  }

  function Percentile(sorted: seq<int>, hundredths: nat): int
    requires hundredths <= 100
  {
    if sorted == [] then 0 else sorted[Rank(|sorted|, hundredths)]
  }

  datatype Latency = Latency(avg: int, p50: int, p95: int, p99: int)

  function LatencyOf(w: seq<int>): Latency {
    if w == [] then Latency(0, 0, 0, 0)
    else
      Latency(Quotient(Total(Self(), w), |w|),
              Percentile(Sorted(w), 50), Percentile(Sorted(w), 95), Percentile(Sorted(w), 99))
  }

  lemma EnoughBelow(s: seq<int>, i: nat)
    requires Ascending(s) && i < |s|
    ensures Total(AtMost(s[i]), s) >= i + 1
  {
    var v, front, back := s[i], s[..i + 1], s[i + 1..];
    assert s == front + back;
    assert forall k | 0 <= k < |front| :: front[k] <= v;
    TotalSplit(AtMost(v), front, back);
    TotalAbove(AtMost(v), front, 1);
    TotalAbove(AtMost(v), back, 0);
  }

  lemma EnoughAbove(s: seq<int>, i: nat)
    requires Ascending(s) && i < |s|
    ensures Total(AtLeast(s[i]), s) >= |s| - i
  {
    var v, front, back := s[i], s[..i], s[i..];
    assert s == front + back;
    assert forall k | 0 <= k < |back| :: back[k] >= v;
    TotalSplit(AtLeast(v), front, back);
    TotalAbove(AtLeast(v), front, 0);
    TotalAbove(AtLeast(v), back, 1);
  }

  lemma RankBounds(n: nat, hundredths: nat, m: nat)
    requires n > 0 && hundredths <= 100
    ensures m >= Rank(n, hundredths) + 1 ==> 100 * m > hundredths * (n - 1)
    ensures m <= Rank(n, hundredths) ==> 100 * m <= hundredths * (n - 1)
  {
    var x := hundredths * (n - 1);
    Scale(0, n - 1, hundredths);
    assert x >= 0 && x / 100 == Rank(n, hundredths);
  }

  /**
   v is a sample, the share of samples at most v is above that many hundredths of the
   distance from the first to the last, and the share below v is not: what the sample at
   index floor((n - 1) * p) of the sorted window is.
   */
  ghost predicate RankedAt(w: seq<int>, v: int, hundredths: nat) {
    && v in w
    && 100 * Total(AtMost(v), w) > hundredths * (|w| - 1)
    && 100 * (|w| - Total(AtLeast(v), w)) <= hundredths * (|w| - 1)
  }

  /** A percentile is a sample with enough samples on either side. */
  lemma PercentileRank(w: seq<int>, hundredths: nat)
    requires w != [] && hundredths <= 100
    ensures RankedAt(w, Percentile(Sorted(w), hundredths), hundredths)
  {
    SortedSorts(w);
    var s, i := Sorted(w), Rank(|w|, hundredths);
    assert |s| == |w| by { assert |multiset(s)| == |s| && |multiset(w)| == |w|; }
    assert s[i] in multiset(w);
    TotalPermuted(AtMost(s[i]), s, w);
    TotalPermuted(AtLeast(s[i]), s, w);
    EnoughBelow(s, i);
    EnoughAbove(s, i);
    RankBounds(|w|, hundredths, Total(AtMost(s[i]), w));
    if Total(AtLeast(s[i]), w) <= |w| {
      RankBounds(|w|, hundredths, |w| - Total(AtLeast(s[i]), w));
    } else {
      Scale(0, |w| - 1, hundredths);
    }
  }

  /** The average times the number of samples is their sum, up to a remainder below that number and towards zero. */
  ghost predicate Truncated(q: int, x: int, n: nat) {
    if x >= 0 then q >= 0 && q * n <= x < q * n + n else q <= 0 && q * n - n < x <= q * n
  }

  lemma FloorIs(y: nat, n: nat)
    requires n > 0
    ensures y / n >= 0 && y / n * n <= y < y / n * n + n
  {
    assert y == y / n * n + y % n;
  }

  lemma Negated(q: int, n: nat)
    ensures (-q) * n == -(q * n)
  {
  }

  lemma QuotientIs(x: int, n: nat)
    requires n > 0
    ensures Truncated(Quotient(x, n), x, n)
  {
    if x >= 0 {
      FloorIs(x, n);
    } else {
      FloorIs(-x, n);
      Negated(-x / n, n);
    }
  }

  /** What Snapshot reports of a window that is not empty: the truncated average and three percentiles. */
  lemma LatencyIs(w: seq<int>)
    requires w != []
    ensures var l := LatencyOf(w);
      && Truncated(l.avg, Total(Self(), w), |w|)
      && RankedAt(w, l.p50, 50) && RankedAt(w, l.p95, 95) && RankedAt(w, l.p99, 99)
  {
    QuotientIs(Total(Self(), w), |w|);
    PercentileRank(w, 50);
    PercentileRank(w, 95);
    PercentileRank(w, 99);
  }

  lemma PercentileAscends(w: seq<int>, p: nat, q: nat)
    requires p <= q <= 100
    ensures Percentile(Sorted(w), p) <= Percentile(Sorted(w), q)
  {
    SortedSorts(w);
    if w != [] { RankAscends(|w|, p, q); }
  }

  lemma PercentilesAscend(w: seq<int>)
    ensures LatencyOf(w).p50 <= LatencyOf(w).p95 <= LatencyOf(w).p99
  {
    PercentileAscends(w, 50, 95);
    PercentileAscends(w, 95, 99);
  }

  lemma FloorBounds(y: int, n: int, lo: int, hi: int)
    requires n > 0 && lo * n <= y <= hi * n
    ensures lo <= y / n <= hi
  {
    var q := y / n;
    assert y == q * n + y % n;
    assert (q + 1) * n == q * n + n && (hi + 1) * n == hi * n + n;
    Scale(hi + 1, q, n);
    Scale(q + 1, lo, n);
  }

  lemma QuotientBounds(x: int, n: int, lo: int, hi: int)
    requires n > 0 && n * lo <= x <= n * hi
    ensures lo <= Quotient(x, n) <= hi
  {
    if x >= 0 {
      FloorBounds(x, n, lo, hi);
    } else {
      assert (-hi) * n == -(n * hi) && (-lo) * n == -(n * lo);
      FloorBounds(-x, n, -hi, -lo);
    }
  }

  /** The truncated average lies between any bounds of the samples. */
  lemma AverageBetween(w: seq<int>, lo: int, hi: int)
    requires w != [] && forall i | 0 <= i < |w| :: lo <= w[i] <= hi
    ensures lo <= LatencyOf(w).avg <= hi
  {
    TotalAbove(Self(), w, lo);
    TotalBelow(Self(), w, hi);
    QuotientBounds(Total(Self(), w), |w|, lo, hi);
  }

  datatype MetricsSnapshot = MetricsSnapshot(
    acquireTotal: nat, acquireSuccess: nat, acquireFail: nat, createTotal: nat, releaseTotal: nat, evictTotal: nat,
    reuseTotal: nat, fetchTotal: nat, fetchSuccess: nat, fetchBlocked: nat, fetchFallback: nat, fetchAllFail: nat,
    byType: map<int, nat>, blocksByType: map<int, nat>, latency: Latency, successRate: real, fallbackRate: real)

  /** A share of the fetches; 0 before the first. */
  function Rate(part: nat, total: nat): real {
    if total > 0 then part as real / total as real else 0.0
  }

  lemma Positive(x: real, n: real)
    requires n > 0.0
    ensures x > 0.0 ==> x * n > 0.0
  {
  }

  lemma Descale(x: real, y: real, n: real)
    requires n > 0.0 && x * n <= y * n
    ensures x <= y
  {
    assert (x - y) * n == x * n - y * n;
    Positive(x - y, n);
  }

  lemma Divided(x: real, n: real)
    requires n > 0.0
    ensures x / n * n == x
  {
  }

  /** x and y are a and b over n. */
  lemma InOrder(x: real, y: real, a: real, b: real, n: real)
    requires n > 0.0 && x * n == a && y * n == b && 0.0 <= a <= b <= n
    ensures 0.0 <= x <= y <= 1.0 && (y == 1.0 <==> b == n)
  {
    assert 0.0 * n == 0.0 && 1.0 * n == n;
    Descale(0.0, x, n);
    Descale(x, y, n);
    Descale(y, 1.0, n);
    if b == n { Descale(1.0, y, n); }
  }

  lemma RateAscends(part: nat, whole: nat, total: nat)
    requires part <= whole <= total
    ensures 0.0 <= Rate(part, total) <= Rate(whole, total) <= 1.0
    ensures Rate(whole, total) == 1.0 <==> 0 < whole == total
    ensures Rate(part, total) * total as real == part as real && Rate(whole, total) * total as real == whole as real
  {
    if total > 0 {
      var n := total as real;
      Divided(part as real, n);
      Divided(whole as real, n);
      InOrder(Rate(part, total), Rate(whole, total), part as real, whole as real, n);
    }
  }

  /** The fetch counters and the window; the counters that the pool raises itself are with the pool. */
  class Metrics {
    var fetchTotal: nat
    var fetchSuccess: nat
    var fetchBlocked: nat
    var fetchFallback: nat
    var fetchAllFail: nat
    var fetchByType: map<int, nat>
    var blockByType: map<int, nat>
    var latencies: seq<int>

    constructor ()
      ensures fetchTotal == fetchSuccess == fetchBlocked == fetchFallback == fetchAllFail == 0
      ensures fetchByType == map[] && blockByType == map[] && latencies == []
    {
      fetchTotal, fetchSuccess, fetchBlocked, fetchFallback, fetchAllFail := 0, 0, 0, 0, 0;
      fetchByType, blockByType, latencies := map[], map[], [];
    }

    method RecordLatency(d: int)
      modifies `latencies
      ensures latencies == Record(old(latencies), d)
    {
      if |latencies| >= MAX_SAMPLES {
        latencies := latencies[1..];
      }
      latencies := latencies + [d];
    }

    method RecordFetchByType(t: int)
      modifies `fetchByType
      ensures forall k :: Get(fetchByType, k) == Get(old(fetchByType), k) + if k == t then 1 else 0
      ensures fetchByType == Bump(old(fetchByType), t)
    {
      fetchByType := fetchByType[t := Get(fetchByType, t) + 1];
    }

    method RecordBlockByType(t: int)
      modifies `blockByType
      ensures forall k :: Get(blockByType, k) == Get(old(blockByType), k) + if k == t then 1 else 0
      ensures blockByType == Bump(old(blockByType), t)
    {
      blockByType := blockByType[t := Get(blockByType, t) + 1];
    }

    /** The average and the percentiles of the window, by a sorted copy. */
    method LatencySnapshot() returns (latency: Latency)
      ensures latency == LatencyOf(latencies)
    {
      var sorted := Sorted(latencies);
      SortedSorts(latencies);
      if |sorted| == 0 {
        return Latency(0, 0, 0, 0);
      }
      var total := TotalOf(sorted);
      TotalPermuted(Self(), sorted, latencies);
      return Latency(Quotient(total, |sorted|),
                     Percentile(sorted, 50), Percentile(sorted, 95), Percentile(sorted, 99));
    }

    /**
     Snapshot reads the counters, pool being those of the pool, and copies the maps and
     the window; it changes nothing.
     */
    method Snapshot(pool: map<P.Tally, nat>) returns (s: MetricsSnapshot)
      ensures s == MetricsSnapshot(
                     P.Count(pool, P.AcquireTotal), P.Count(pool, P.AcquireSuccess), P.Count(pool, P.AcquireFail),
                     P.Count(pool, P.CreateTotal), P.Count(pool, P.ReleaseTotal), P.Count(pool, P.EvictTotal),
                     P.Count(pool, P.ReuseTotal),
                     fetchTotal, fetchSuccess, fetchBlocked, fetchFallback, fetchAllFail,
                     fetchByType, blockByType, LatencyOf(latencies),
                     Rate(fetchSuccess, fetchTotal), Rate(fetchFallback, fetchTotal))
    {
      var byType := CopyMap(fetchByType);
      var blocks := CopyMap(blockByType);
      var latency := LatencySnapshot();
      s := MetricsSnapshot(
        P.Count(pool, P.AcquireTotal), P.Count(pool, P.AcquireSuccess), P.Count(pool, P.AcquireFail),
        P.Count(pool, P.CreateTotal), P.Count(pool, P.ReleaseTotal), P.Count(pool, P.EvictTotal),
        P.Count(pool, P.ReuseTotal),
        fetchTotal, fetchSuccess, fetchBlocked, fetchFallback, fetchAllFail, byType, blocks, latency,
        Rate(fetchSuccess, fetchTotal), Rate(fetchFallback, fetchTotal));
    }
  }

  /** for _, d := range s { total += d } */
  method TotalOf(s: seq<int>) returns (total: int)
    ensures total == Total(Self(), s)
  {
    total := 0;
    for i := 0 to |s|
      invariant total == Total(Self(), s[..i])
    {
      assert s[..i + 1][..i] == s[..i];
      total := total + s[i];
    }
    assert s[..|s|] == s;
  }

  /** for k, v := range m { r[k] = v } */
  method CopyMap(m: map<int, nat>) returns (r: map<int, nat>)
    ensures r == m
  {
    r := map[];
    var todo := m.Keys;
    while todo != {}
      invariant todo <= m.Keys
      invariant r == map k | k in m && k !in todo :: m[k]
      decreases |todo|
    {
      var k := NextKey(todo);
      r := r[k := m[k]];
      todo := todo - {k};
    }
  }
}
