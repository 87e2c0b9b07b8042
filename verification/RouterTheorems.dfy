/** Fairness of round robin, and failover under both strategies. */
module RouterTheorems {
  import opened Router

  // ---- remainders ----

  lemma {:induction false} RemAdd(x: nat, y: nat, n: nat)
    requires n > 0 && Rem(y, n) == 0
    ensures Rem(x + y, n) == Rem(x, n)
  {
    if y >= n { RemAdd(x, y - n, n); }
  }

  /** A little before x. */
  lemma {:induction false} RemBack(x: nat, t: nat, n: nat)
    requires t < n && t <= x
    ensures Rem(x - t, n) == if t <= Rem(x, n) then Rem(x, n) - t else n + Rem(x, n) - t
  {
    if x >= n && x - n >= t { RemBack(x - n, t, n); }
  }

  // ---- how often a window of counter values points at an endpoint ----

  function Hits(n: nat, c: nat, e: nat, i: nat): nat
    requires n > 0
    decreases e - c
  {
    if e <= c then 0 else (if Rem(c, n) == i then 1 else 0) + Hits(n, c + 1, e, i)
  }

  lemma {:induction false} HitsSplit(n: nat, c: nat, m: nat, e: nat, i: nat)
    requires n > 0 && c <= m <= e
    ensures Hits(n, c, e, i) == Hits(n, c, m, i) + Hits(n, m, e, i)
    decreases m - c
  {
    if c < m { HitsSplit(n, c + 1, m, e, i); }
  }

  lemma {:induction false} HitsBelow(n: nat, c: nat, e: nat, i: nat)
    requires c <= e <= n && n > 0
    ensures Hits(n, c, e, i) == if c <= i < e then 1 else 0
    decreases e - c
  {
    if c < e { HitsBelow(n, c + 1, e, i); }
  }

  /** A full round points at every endpoint once. */
  lemma {:induction false} FullRound(n: nat, c: nat, i: nat)
    requires i < n
    ensures Hits(n, c, c + n, i) == 1
  {
    if c == 0 {
      HitsBelow(n, 0, n, i);
    } else {
      FullRound(n, c - 1, i);
      HitsSplit(n, c - 1, c, c - 1 + n, i);
      HitsSplit(n, c, c - 1 + n, c + n, i);
    }
  }

  /** Any window points at any two endpoints equally often, give or take one. */
  lemma {:induction false} WindowsBalance(n: nat, c: nat, e: nat, i: nat, j: nat)
    requires i < n && j < n && c <= e
    ensures Hits(n, c, e, i) <= Hits(n, c, e, j) + 1
    decreases e - c
  {
    FullRound(n, c, i);
    FullRound(n, c, j);
    if e - c <= n {
      HitsSplit(n, c, e, c + n, i);
    } else {
      HitsSplit(n, c, c + n, e, i);
      HitsSplit(n, c, c + n, e, j);
      WindowsBalance(n, c + n, e, i, j);
    }
  }

  // ---- the wrap of the counter ----

  /** Up to e raises the counter points as an unbounded one would: it does not wrap, or n divides its range. */
  predicate Seamless(n: nat, e: nat)
    requires n > 0
  {
    e <= COUNTER || Rem(COUNTER, n) == 0
  }

  lemma {:induction false} PlainPos(n: nat, e: nat, p: nat)
    requires n > 0 && Seamless(n, e) && p < e
    ensures Pos(n, p) == Rem(p, n)
    decreases p
  {
    if p >= COUNTER {
      PlainPos(n, e, p - COUNTER);
      RemAdd(p - COUNTER, COUNTER, n);
    }
  }

  lemma {:induction false} SkippedUnhealthy(eps: seq<Endpoint>, c: nat, k: nat, p: nat)
    requires eps != [] && c <= p < c + Skips(eps, c, k)
    ensures !eps[Pos(|eps|, p)].healthy
    decreases k
  {
    if p > c { SkippedUnhealthy(eps, c + 1, k - 1, p); }
  }

  lemma {:induction false} NoHits(eps: seq<Endpoint>, c: nat, k: nat, b: nat, i: nat)
    requires eps != [] && c <= b <= c + Skips(eps, c, k) && Healthy(eps, i) && Seamless(|eps|, c + Skips(eps, c, k))
    ensures Hits(|eps|, b, c + Skips(eps, c, k), i) == 0
    decreases c + Skips(eps, c, k) - b
  {
    var e := c + Skips(eps, c, k);
    if b < e {
      SkippedUnhealthy(eps, c, k, b);
      PlainPos(|eps|, e, b);
      NoHits(eps, c, k, b + 1, i);
    }
  }

  lemma HitsNext(n: nat, c: nat, e: nat, i: nat)
    requires n > 0 && c <= e
    ensures Hits(n, c, e + 1, i) == Hits(n, c, e, i) + if Rem(e, n) == i then 1 else 0
  {
    HitsSplit(n, c, e, e + 1, i);
    assert Hits(n, e + 1, e + 1, i) == 0;
  }

  lemma SomeSkipsFewer(eps: seq<Endpoint>, c: nat, i: nat)
    requires Healthy(eps, i) && Seamless(|eps|, c + Probes(eps, c))
    ensures Skips(eps, c, |eps|) < |eps|
  {
    NoHits(eps, c, |eps|, c, i);
    FullRound(|eps|, c, i);
  }

  lemma TurnShape(eps: seq<Endpoint>, c: nat, i: nat)
    requires Healthy(eps, i) && Seamless(|eps|, c + Probes(eps, c))
    ensures Probes(eps, c) == Skips(eps, c, |eps|) + 1
    ensures Turn(eps, c) == Rem(c + Skips(eps, c, |eps|), |eps|)
    ensures eps[Turn(eps, c)].healthy
  {
    SomeSkipsFewer(eps, c, i);
    var e := c + Skips(eps, c, |eps|);
    PlainPos(|eps|, e + 1, e);
  }

  /** A Pick passes every healthy endpoint but the one it takes. */
  lemma TurnHits(eps: seq<Endpoint>, c: nat, i: nat)
    requires Healthy(eps, i) && Seamless(|eps|, c + Probes(eps, c))
    ensures Hits(|eps|, c, c + Probes(eps, c), i) == if Turn(eps, c) == i then 1 else 0
  {
    TurnShape(eps, c, i);
    NoHits(eps, c, |eps|, c, i);
    HitsNext(|eps|, c, c + Skips(eps, c, |eps|), i);
  }

  /** A Pick takes a healthy endpoint if there is one, unless its probes run over an uneven wrap of the counter. */
  lemma PickFinds(eps: seq<Endpoint>, c: nat, i: nat)
    requires Healthy(eps, i) && Seamless(|eps|, c + |eps|)
    ensures eps[Turn(eps, c)].healthy
  {
    TurnShape(eps, c, i);
  }

  ghost predicate AlwaysFinds(n: nat, c: nat) {
    forall eps: seq<Endpoint>, i: nat | 0 < |eps| == n && Healthy(eps, i) :: eps[Turn(eps, c)].healthy
  }

  function OnlyHealthy(n: nat, j: nat): (eps: seq<Endpoint>)
    ensures |eps| == n && forall i | 0 <= i < n :: Healthy(eps, i) <==> i == j
  {
    seq(n, i => Endpoint("", i == j, Pressure(0, 0, true)))
  }

  function Missed(n: nat, c: nat): (j: nat)
    requires n > 0 && c < COUNTER < c + n
  {
    var w, a := Rem(COUNTER, n), COUNTER - c;
    if n - a >= w then n - a else w
  }

  lemma ProbeMisses(n: nat, c: nat, p: nat)
    requires 0 < n <= MAX_INT && c < COUNTER < c + n && c <= p < c + n && Rem(COUNTER, n) > 0
    ensures Pos(n, p) != Missed(n, c) < n
  {
    if p < COUNTER {
      RemBack(COUNTER, COUNTER - p, n);
    } else {
      assert Rem(p, COUNTER) == p - COUNTER;
    }
  }

  /** Exactly when a Pick from counter c always finds a healthy endpoint. */
  lemma PickFindsIff(n: nat, c: nat)
    requires 0 < n <= MAX_INT && c < COUNTER
    ensures AlwaysFinds(n, c) <==> c + n <= COUNTER || COUNTER % n == 0
  {
    RemIsMod(COUNTER, n);
    if Seamless(n, c + n) {
      forall eps: seq<Endpoint>, i: nat | 0 < |eps| == n && Healthy(eps, i)
        ensures eps[Turn(eps, c)].healthy
      {
        PickFinds(eps, c, i);
      }
    } else {
      PickMisses(n, c);
    }
  }

  lemma PickMisses(n: nat, c: nat)
    requires 0 < n <= MAX_INT && c < COUNTER && !Seamless(n, c + n)
    ensures !AlwaysFinds(n, c)
  {
    var j := Missed(n, c);
    var eps := OnlyHealthy(n, j);
    forall p | c <= p < c + n ensures !eps[Pos(n, p)].healthy {
      ProbeMisses(n, c, p);
      assert !Healthy(eps, Pos(n, p));
    }
    ProbeMisses(n, c, c);
    SkipsAt(eps, c, n, n);
    assert Healthy(eps, j) && !Healthy(eps, 0);
    assert !eps[Turn(eps, c)].healthy;
  }

  // ---- runs of picks ----

  /** What k steps take, one after the other. */
  function Walk(take: nat -> nat, next: nat -> nat, c: nat, k: nat): (r: seq<nat>)
    ensures |r| == k
    decreases k
  {
    if k == 0 then [] else [take(c)] + Walk(take, next, next(c), k - 1)
  }

  function Reach(next: nat -> nat, c: nat, k: nat): nat
    decreases k
  {
    if k == 0 then c else Reach(next, next(c), k - 1)
  }

  /** The endpoint a Pick takes, as a function of the counter. */
  function Taken(eps: seq<Endpoint>): nat -> nat
    requires eps != []
  {
    (c: nat) => Turn(eps, c)
  }

  /** The counter after a Pick, and what it would be if it did not wrap. */
  function Wrapping(eps: seq<Endpoint>): nat -> nat
    requires eps != []
  {
    (c: nat) => CounterAfter(eps, true, c)
  }

  function Unbounded(eps: seq<Endpoint>): nat -> nat
    requires eps != []
  {
    (c: nat) => c + Probes(eps, c)
  }

  /** The endpoints that k Picks in a row take, from counter c. */
  function Picks(eps: seq<Endpoint>, c: nat, k: nat): seq<nat>
    requires eps != []
  {
    Walk(Taken(eps), Wrapping(eps), c, k)
  }

  /** How far k Picks raise the counter, not taking the wrap into account. */
  function Raised(eps: seq<Endpoint>, c: nat, k: nat): nat
    requires eps != []
  {
    Reach(Unbounded(eps), c, k)
  }

  lemma {:induction false} SkipsWrap(eps: seq<Endpoint>, c: nat, d: nat, k: nat)
    requires eps != [] && Rem(c, COUNTER) == Rem(d, COUNTER)
    ensures Skips(eps, c, k) == Skips(eps, d, k)
    decreases k
  {
    if k > 0 {
      CounterRaised(c);
      CounterRaised(d);
      SkipsWrap(eps, c + 1, d + 1, k - 1);
    }
  }

  lemma {:induction false} RemIdem(c: nat, n: nat)
    requires n > 0
    ensures Rem(Rem(c, n), n) == Rem(c, n)
  {
    if c >= n { RemIdem(c - n, n); }
  }

  lemma {:induction false} SameAfter(c: nat, d: nat, p: nat)
    requires Rem(c, COUNTER) == Rem(d, COUNTER)
    ensures Rem(c + p, COUNTER) == Rem(d + p, COUNTER)
  {
    if p > 0 {
      SameAfter(c, d, p - 1);
      CounterRaised(c + p - 1);
      CounterRaised(d + p - 1);
    }
  }

  /** A Pick does not depend on how often the counter has wrapped. */
  lemma TurnWrap(eps: seq<Endpoint>, c: nat, d: nat)
    requires eps != [] && Rem(c, COUNTER) == Rem(d, COUNTER)
    ensures Turn(eps, c) == Turn(eps, d) && Probes(eps, c) == Probes(eps, d)
  {
    SkipsWrap(eps, c, d, |eps|);
    SameAfter(c, d, Skips(eps, c, |eps|));
  }

  /** Two counters that never differ but by wraps give the same run. */
  lemma {:induction false} WalkWrap(take: nat -> nat, f: nat -> nat, g: nat -> nat, c: nat, d: nat, k: nat)
    requires Rem(c, COUNTER) == Rem(d, COUNTER)
    requires forall x, y | Rem(x, COUNTER) == Rem(y, COUNTER) ::
      take(x) == take(y) && Rem(f(x), COUNTER) == Rem(g(y), COUNTER)
    ensures Walk(take, f, c, k) == Walk(take, g, d, k)
    decreases k
  {
    if k > 0 { WalkWrap(take, f, g, f(c), g(d), k - 1); }
  }

  /** So the wraps make no difference to a run. */
  lemma PicksUnbounded(eps: seq<Endpoint>, c: nat, k: nat)
    requires eps != []
    ensures Picks(eps, c, k) == Walk(Taken(eps), Unbounded(eps), c, k)
  {
    forall x: nat, y: nat | Rem(x, COUNTER) == Rem(y, COUNTER)
      ensures Taken(eps)(x) == Taken(eps)(y)
      ensures Rem(Wrapping(eps)(x), COUNTER) == Rem(Unbounded(eps)(y), COUNTER)
    {
      TurnWrap(eps, x, y);
      SameAfter(x, y, Probes(eps, x));
      RemIdem(x + Probes(eps, x), COUNTER);
    }
    WalkWrap(Taken(eps), Wrapping(eps), Unbounded(eps), c, c, k);
  }

  function PickCount(picks: seq<nat>, i: nat): nat {
    multiset(picks)[i]
  }

  lemma PickCountNext(a: nat, picks: seq<nat>, i: nat)
    ensures PickCount([a] + picks, i) == PickCount(picks, i) + if a == i then 1 else 0
  {
  }

  lemma {:induction false} ReachUp(next: nat -> nat, c: nat, k: nat)
    requires forall x :: next(x) >= x
    ensures Reach(next, c, k) >= c
    decreases k
  {
    if k > 0 { ReachUp(next, next(c), k - 1); }
  }

  /** Steps that each pass i once if they take it, and else not, take i once for every value that points at it. */
  lemma {:induction false} WalkHits(take: nat -> nat, next: nat -> nat, n: nat, c: nat, k: nat, i: nat)
    requires n > 0 && forall x :: next(x) >= x
    requires forall x | next(x) <= Reach(next, c, k) :: Hits(n, x, next(x), i) == if take(x) == i then 1 else 0
    ensures PickCount(Walk(take, next, c, k), i) == Hits(n, c, Reach(next, c, k), i)
    decreases k
  {
    if k > 0 {
      var d, e := next(c), Reach(next, c, k);
      ReachUp(next, d, k - 1);
      WalkHits(take, next, n, d, k - 1, i);
      PickCountNext(take(c), Walk(take, next, d, k - 1), i);
      HitsSplit(n, c, d, e, i);
    }
  }

  /** A run takes a healthy endpoint once for every counter value of the run that points at it. */
  lemma RunHits(eps: seq<Endpoint>, c: nat, k: nat, i: nat)
    requires Healthy(eps, i) && Seamless(|eps|, Raised(eps, c, k))
    ensures Raised(eps, c, k) >= c
    ensures PickCount(Picks(eps, c, k), i) == Hits(|eps|, c, Raised(eps, c, k), i)
  {
    var take, next := Taken(eps), Unbounded(eps);
    forall x: nat | next(x) <= Reach(next, c, k)
      ensures Hits(|eps|, x, next(x), i) == if take(x) == i then 1 else 0
    {
      TurnHits(eps, x, i);
    }
    ReachUp(next, c, k);
    WalkHits(take, next, |eps|, c, k, i);
    PicksUnbounded(eps, c, k);
  }

  /**
   Fairness: over any run of Picks the healthy endpoints are taken equally often, give
   or take one, whatever the pattern of unhealthy ones.
   */
  lemma RoundRobinFair(eps: seq<Endpoint>, c: nat, k: nat, i: nat, j: nat)
    requires Healthy(eps, i) && Healthy(eps, j) && Seamless(|eps|, Raised(eps, c, k))
    ensures PickCount(Picks(eps, c, k), i) <= PickCount(Picks(eps, c, k), j) + 1
  {
    RunHits(eps, c, k, i);
    RunHits(eps, c, k, j);
    WindowsBalance(|eps|, c, Raised(eps, c, k), i, j);
  }

  ghost predicate AlwaysFair(n: nat) {
    forall eps: seq<Endpoint>, c: nat, k: nat, i: nat, j: nat |
      0 < |eps| == n && c < COUNTER && Healthy(eps, i) && Healthy(eps, j) ::
      PickCount(Picks(eps, c, k), i) <= PickCount(Picks(eps, c, k), j) + 1
  }

  lemma AllHealthyTurn(eps: seq<Endpoint>, c: nat)
    requires eps != [] && forall i | 0 <= i < |eps| :: eps[i].healthy
    ensures Turn(eps, c) == Pos(|eps|, c) && Probes(eps, c) == 1
  {
    assert eps[Pos(|eps|, c)].healthy;
  }

  /** With all endpoints healthy and no wrap near, Picks go through the list. */
  lemma {:induction false} PicksInOrder(eps: seq<Endpoint>, c: nat, k: nat)
    requires eps != [] && c + k <= |eps| <= MAX_INT && forall i | 0 <= i < |eps| :: eps[i].healthy
    ensures Picks(eps, c, k) == seq(k, x => c + x)
    decreases k
  {
    if k > 0 {
      AllHealthyTurn(eps, c);
      assert Taken(eps)(c) == c && Wrapping(eps)(c) == c + 1;
      PicksInOrder(eps, c + 1, k - 1);
    }
  }

  /** Around an uneven wrap one endpoint is taken twice before another is taken at all. */
  lemma UnevenWrap(n: nat)
    requires 0 < n <= MAX_INT && Rem(COUNTER, n) != 0
    ensures !AlwaysFair(n)
  {
    var eps := seq(n, i => Endpoint("", true, Pressure(0, 0, true)));
    var w := Rem(COUNTER, n);
    var rest := Picks(eps, 0, n - 1);
    PicksInOrder(eps, 0, n - 1);
    RemBack(COUNTER, 1, n);
    AllHealthyTurn(eps, COUNTER - 1);
    var all := Picks(eps, COUNTER - 1, n);
    assert all == [w - 1] + rest;
    assert w < n;
    assert w < n - 1 || w == n - 1;
    assert rest[w - 1] == w - 1;
    assert n - 1 !in rest;
    assert PickCount(all, w - 1) == 1 + PickCount(rest, w - 1);
    assert PickCount(all, n - 1) == 0;
    assert Healthy(eps, w - 1) && Healthy(eps, n - 1);
  }

  /** Exactly when round robin stays fair for every start, run and health pattern. */
  lemma FairIff(n: nat)
    requires 0 < n <= MAX_INT
    ensures AlwaysFair(n) <==> COUNTER % n == 0
  {
    RemIsMod(COUNTER, n);
    if Rem(COUNTER, n) == 0 {
      forall eps: seq<Endpoint>, c: nat, k: nat, i: nat, j: nat |
        0 < |eps| == n && c < COUNTER && Healthy(eps, i) && Healthy(eps, j)
        ensures PickCount(Picks(eps, c, k), i) <= PickCount(Picks(eps, c, k), j) + 1
      {
        RoundRobinFair(eps, c, k, i, j);
      }
    } else {
      UnevenWrap(n);
    }
  }
}
