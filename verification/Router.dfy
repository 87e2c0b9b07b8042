/** The endpoint router of the browserless provider: two strategies over one endpoint list. */
module Router {
  import opened Options

  /** atomic.Uint64 wraps here. */
  const COUNTER: nat := 0x1_0000_0000_0000_0000

  /** math.MaxInt of a 64-bit platform. */
  const MAX_INT: int := 0x7FFF_FFFF_FFFF_FFFF

  type Int64 = x: int | -MAX_INT - 1 <= x <= MAX_INT

  datatype Pressure = Pressure(running: Int64, queued: Int64, isAvailable: bool)

  datatype Endpoint = Endpoint(url: string, healthy: bool, pressure: Pressure)

  /** Two's complement addition of a Go int. */
  function Add(x: Int64, y: Int64): Int64 {
    var z := x + y;
    if z > MAX_INT then z - COUNTER else if z < -MAX_INT - 1 then z + COUNTER else z
  }

  function Load(e: Endpoint): Int64 {
    Add(e.pressure.running, e.pressure.queued)
  }

  /** The load is the requests running and queued, modulo 2^64 in the range of an int. */
  lemma LoadIs(e: Endpoint)
    ensures var requests := e.pressure.running + e.pressure.queued;
      && (Load(e) - requests) % COUNTER == 0
      && (-MAX_INT - 1 <= requests <= MAX_INT ==> Load(e) == requests)
  {
  }

  predicate Healthy(eps: seq<Endpoint>, i: int) {
    0 <= i < |eps| && eps[i].healthy
  }

  // ---- round robin ----

  /** x % n, by repeated subtraction. */
  function Rem(x: nat, n: nat): (r: nat)
    requires n > 0
    ensures r < n
  {
    if x < n then x else Rem(x - n, n)
  }

  lemma Product(d: int, n: int)
    requires n > 0
    ensures d > 0 ==> d * n >= n
    ensures d < 0 ==> d * n <= -n
  {
  }

  lemma ModStep(x: nat, n: nat)
    requires 0 < n <= x
    ensures x % n == (x - n) % n
  {
    var q, r := (x - n) / n, (x - n) % n;
    var d := x / n - (q + 1);
    assert x == (x / n) * n + x % n && x == (q + 1) * n + r;
    assert d * n == r - x % n;
    Product(d, n);
  }

  lemma {:induction false} RemIsMod(x: nat, n: nat)
    requires n > 0
    ensures Rem(x, n) == x % n
  {
    if x >= n {
      RemIsMod(x - n, n);
      ModStep(x, n);
    }
  }

  /** The endpoint that the counter points at after c raises. */
  function Pos(n: nat, c: nat): (i: nat)
    requires n > 0
    ensures i < n
  {
    Rem(Rem(c, COUNTER), n)
  }

  /** How many of the next k probes pass before one finds a healthy endpoint. */
  function Skips(eps: seq<Endpoint>, c: nat, k: nat): (r: nat)
    requires eps != []
    ensures r <= k
    ensures r < k ==> eps[Pos(|eps|, c + r)].healthy
    decreases k
  {
    if k == 0 || eps[Pos(|eps|, c)].healthy then 0
    else
      var r := Skips(eps, c + 1, k - 1);
      assert c + 1 + r == c + (1 + r);
      1 + r
  }

  /** Where a round-robin Pick ends when the counter has been raised c times. */
  function Turn(eps: seq<Endpoint>, c: nat): (i: nat)
    requires eps != []
    ensures i < |eps|
  {
    var r := Skips(eps, c, |eps|);
    if r < |eps| then Pos(|eps|, c + r) else 0
  }

  /** How often that Pick raises the counter. */
  function Probes(eps: seq<Endpoint>, c: nat): (p: nat)
    requires eps != []
    ensures 1 <= p <= |eps|
  {
    var r := Skips(eps, c, |eps|);
    if r < |eps| then r + 1 else r
  }

  lemma {:induction false} SkipsAt(eps: seq<Endpoint>, c: nat, k: nat, j: nat)
    requires eps != [] && j <= k
    requires forall p | c <= p < c + j :: !eps[Pos(|eps|, p)].healthy
    ensures Skips(eps, c, k) >= j
    ensures j < k && eps[Pos(|eps|, c + j)].healthy ==> Skips(eps, c, k) == j
    decreases k
  {
    if j > 0 {
      SkipsAt(eps, c + 1, k - 1, j - 1);
      assert c + 1 + (j - 1) == c + j;
    }
  }

  lemma {:induction false} CounterRaised(c: nat)
    ensures Rem(c + 1, COUNTER) == if Rem(c, COUNTER) + 1 == COUNTER then 0 else Rem(c, COUNTER) + 1
  {
    if c >= COUNTER { CounterRaised(c - COUNTER); }
  }

  // ---- least load ----

  /** pickLeastLoad starts from math.MaxInt, so an endpoint loaded that much is never taken. */
  predicate Eligible(eps: seq<Endpoint>, i: int) {
    Healthy(eps, i) && Load(eps[i]) < MAX_INT
  }

  /** Endpoint i is to be taken before j: less loaded, or first in the list. */
  predicate Before(eps: seq<Endpoint>, i: nat, j: nat)
    requires i < |eps| && j < |eps|
  {
    Load(eps[i]) < Load(eps[j]) || (Load(eps[i]) == Load(eps[j]) && i <= j)
  }

  ghost predicate IsLeast(eps: seq<Endpoint>, b: nat) {
    Eligible(eps, b) && forall i | 0 <= i < |eps| && Eligible(eps, i) :: Before(eps, b, i)
  }

  /** The endpoint pickLeastLoad takes: a least eligible one, else the first of the list. */
  ghost predicate LeastLoaded(eps: seq<Endpoint>, b: nat) {
    b < |eps| && (IsLeast(eps, b) || (b == 0 && forall i | 0 <= i < |eps| :: !Eligible(eps, i)))
  }

  /** There is exactly one such endpoint. */
  lemma LeastLoadedUnique(eps: seq<Endpoint>, b: nat, c: nat)
    requires LeastLoaded(eps, b) && LeastLoaded(eps, c)
    ensures b == c
  {
    if IsLeast(eps, b) && IsLeast(eps, c) {
      assert Before(eps, b, c) && Before(eps, c, b);
    }
  }

  /** No healthy endpoint has so many requests that their number wraps. */
  ghost predicate Countable(eps: seq<Endpoint>) {
    forall i | Healthy(eps, i) :: -MAX_INT - 1 <= eps[i].pressure.running + eps[i].pressure.queued <= MAX_INT
  }

  /**
   Endpoint b is healthy and has fewer requests running and queued than any other healthy
   one, the first among equals; if none has fewer than math.MaxInt, b is the first of all.
   */
  ghost predicate FewestRequests(eps: seq<Endpoint>, b: nat) {
    && b < |eps|
    && (b == 0 || Healthy(eps, b))
    && ((exists i :: Healthy(eps, i) && eps[i].pressure.running + eps[i].pressure.queued < MAX_INT) ==>
          && Healthy(eps, b)
          && forall i | Healthy(eps, i) && i != b ::
               var own, other := eps[b].pressure.running + eps[b].pressure.queued,
                                 eps[i].pressure.running + eps[i].pressure.queued;
               own < other || (own == other && b < i))
    && ((forall i :: Healthy(eps, i) ==> eps[i].pressure.running + eps[i].pressure.queued == MAX_INT) ==> b == 0)
  }

  /** So by requests: an endpoint that least load takes has the fewest. */
  lemma LeastIsFewest(eps: seq<Endpoint>, b: nat)
    requires LeastLoaded(eps, b) && Countable(eps)
    ensures FewestRequests(eps, b)
  {
    forall i | Healthy(eps, i)
      ensures Load(eps[i]) == eps[i].pressure.running + eps[i].pressure.queued
      ensures Eligible(eps, i) <==> eps[i].pressure.running + eps[i].pressure.queued < MAX_INT
    {
      LoadIs(eps[i]);
    }
    if i :| Healthy(eps, i) && eps[i].pressure.running + eps[i].pressure.queued < MAX_INT {
      assert Eligible(eps, i);
    }
  }

  /** Endpoint i is the one Pick takes when the counter stands at c. */
  ghost predicate Takes(eps: seq<Endpoint>, roundRobin: bool, c: nat, i: nat) {
    eps != [] && if roundRobin then i == Turn(eps, c) else LeastLoaded(eps, i)
  }

  /** The counter after that Pick. */
  function CounterAfter(eps: seq<Endpoint>, roundRobin: bool, c: nat): nat
    requires eps != []
  {
    if roundRobin then Rem(c + Probes(eps, c), COUNTER) else c
  }

  // ---- health ----

  /** The list after MarkUnhealthy: the first endpoint with that URL is unhealthy. */
  function Marked(eps: seq<Endpoint>, url: string): (r: seq<Endpoint>)
    ensures |r| == |eps|
  {
    if eps == [] then []
    else if eps[0].url == url then [eps[0].(healthy := false)] + eps[1..]
    else [eps[0]] + Marked(eps[1..], url)
  }

  /** Index of the first endpoint with a URL; |eps| if there is none. */
  function FirstWith(eps: seq<Endpoint>, url: string): (i: nat)
    ensures i <= |eps|
    ensures i < |eps| ==> eps[i].url == url
    ensures forall j | 0 <= j < i :: eps[j].url != url
  {
    if eps == [] || eps[0].url == url then 0 else FirstWith(eps[1..], url) + 1
  }

  lemma {:induction false} MarkedAt(eps: seq<Endpoint>, url: string)
    ensures var i := FirstWith(eps, url);
      Marked(eps, url) == if i < |eps| then eps[i := eps[i].(healthy := false)] else eps
  {
    if eps != [] && eps[0].url != url {
      MarkedAt(eps[1..], url);
      assert eps == [eps[0]] + eps[1..];
    }
  }

  class Router {
    const endpoints: array<Endpoint>
    const strategy: string
    var rrIndex: nat

    ghost predicate Valid()
      reads this
    {
      rrIndex < COUNTER
    }

    constructor (endpoints: array<Endpoint>, strategy: string)
      ensures Valid() && this.endpoints == endpoints && this.strategy == strategy && rrIndex == 0
    {
      this.endpoints := endpoints;
      this.strategy := strategy;
      rrIndex := 0;
    }

    /** The endpoint that Pick points at; nil for an empty list. */
    method Pick() returns (r: Option<nat>)
      requires Valid()
      modifies `rrIndex
      ensures Valid()
      ensures r.None? <==> endpoints.Length == 0
      ensures r.Some? ==> Takes(endpoints[..], strategy == "round-robin", old(rrIndex), r.value)
      ensures r.Some? ==> rrIndex == CounterAfter(endpoints[..], strategy == "round-robin", old(rrIndex))
      ensures r.None? ==> rrIndex == old(rrIndex)
      ensures r.Some? && strategy != "round-robin" && Countable(endpoints[..]) ==>
        FewestRequests(endpoints[..], r.value)
      ensures r.Some? && (forall j | 0 <= j < endpoints.Length :: !endpoints[j].healthy) ==> r == Some(0)
    {
      if endpoints.Length == 0 { return None; }
      if strategy == "round-robin" {
        var i := PickRoundRobin();
        return Some(i);
      } else {
        var i := PickLeastLoad();
        return Some(i);
      }
    }

    method PickRoundRobin() returns (i: nat)
      requires Valid() && endpoints.Length > 0
      modifies `rrIndex
      ensures Valid() && i < endpoints.Length
      ensures i == Turn(endpoints[..], old(rrIndex))
      ensures (forall j | 0 <= j < endpoints.Length :: !endpoints[j].healthy) ==> i == 0
      ensures rrIndex == Rem(old(rrIndex) + Probes(endpoints[..], old(rrIndex)), COUNTER)
    {
      var n := endpoints.Length;
      ghost var eps, c := endpoints[..], rrIndex;
      for k := 0 to n
        invariant Valid() && rrIndex == Rem(c + k, COUNTER)
        invariant forall p | c <= p < c + k :: !eps[Pos(n, p)].healthy
      {
        var idx := rrIndex;
        rrIndex := if rrIndex + 1 == COUNTER then 0 else rrIndex + 1;
        CounterRaised(c + k);
        assert c + k + 1 == c + (k + 1);
        assert idx % n == Pos(n, c + k) by { RemIsMod(idx, n); }
        if endpoints[idx % n].healthy {
          SkipsAt(eps, c, n, k);
          return idx % n;
        }
      }
      SkipsAt(eps, c, n, n);
      return 0;
    }

    method PickLeastLoad() returns (b: nat)
      requires endpoints.Length > 0
      ensures LeastLoaded(endpoints[..], b)
      ensures Countable(endpoints[..]) ==> FewestRequests(endpoints[..], b)
      ensures (forall j | 0 <= j < endpoints.Length :: !endpoints[j].healthy) ==> b == 0
    {
      var best: Option<nat> := None;
      var bestLoad := MAX_INT;
      ghost var eps := endpoints[..];
      for i := 0 to endpoints.Length
        invariant best.None? ==> bestLoad == MAX_INT && forall j | 0 <= j < i :: !Eligible(eps, j)
        invariant best.Some? ==>
          && best.value < i && Eligible(eps, best.value) && bestLoad == Load(eps[best.value])
          && forall j | 0 <= j < i && Eligible(eps, j) :: Before(eps, best.value, j)
      {
        var e := endpoints[i];
        if !e.healthy { continue; }
        var load := Load(e);
        if load < bestLoad {
          bestLoad := load;
          best := Some(i);
        }
      }
      b := if best.None? then 0 else best.value;
      if Countable(eps) { LeastIsFewest(eps, b); }
    }

    method MarkUnhealthy(url: string)
      modifies endpoints
      ensures endpoints[..] == Marked(old(endpoints[..]), url)
      ensures forall j | 0 <= j < endpoints.Length ::
        endpoints[j] == if old(endpoints[j].url) == url && forall k | 0 <= k < j :: old(endpoints[k].url) != url
                        then old(endpoints[j]).(healthy := false) else old(endpoints[j])
    {
      ghost var eps := endpoints[..];
      MarkedAt(eps, url);
      for i := 0 to endpoints.Length
        invariant endpoints[..] == eps
        invariant forall j | 0 <= j < i :: eps[j].url != url
      {
        if endpoints[i].url == url {
          endpoints[i] := endpoints[i].(healthy := false);
          return;
        }
      }
    }

    /** The pressure requests have the given answers; the result is the last endpoint whose request failed. */
    method HealthCheckAll(answers: seq<Option<Pressure>>) returns (lastErr: Option<nat>)
      requires |answers| == endpoints.Length
      modifies endpoints
      ensures forall i | 0 <= i < |answers| ::
        var was, now := old(endpoints[i]), endpoints[i];
        && now.url == was.url
        && (now.healthy <==> answers[i].Some? && answers[i].value.isAvailable)
        && now.pressure == if answers[i].Some? then answers[i].value else was.pressure
      ensures lastErr.None? <==> forall i | 0 <= i < |answers| :: answers[i].Some?
      ensures lastErr.Some? ==>
        lastErr.value < |answers| && answers[lastErr.value].None?
        && forall i | lastErr.value < i < |answers| :: answers[i].Some?
    {
      lastErr := None;
      for i := 0 to endpoints.Length
        invariant forall j | 0 <= j < i ::
          endpoints[j] == if answers[j].None? then old(endpoints[j]).(healthy := false)
                          else Endpoint(old(endpoints[j]).url, answers[j].value.isAvailable, answers[j].value)
        invariant forall j | i <= j < endpoints.Length :: endpoints[j] == old(endpoints[j])
        invariant lastErr.None? <==> forall j | 0 <= j < i :: answers[j].Some?
        invariant lastErr.Some? ==>
          lastErr.value < i && answers[lastErr.value].None?
          && forall j | lastErr.value < j < i :: answers[j].Some?
      {
        if answers[i].None? {
          endpoints[i] := endpoints[i].(healthy := false);
          lastErr := Some(i);
          continue;
        }
        endpoints[i] := endpoints[i].(pressure := answers[i].value, healthy := answers[i].value.isAvailable);
      }
    }
  }

  datatype Creation =
    | Created(endpoint: nat) | NoHealthyEndpoint | ConnectFailed(endpoint: nat) | PageFailed(endpoint: nat)

  class Provider {
    const router: Router

    constructor (router: Router)
      ensures this.router == router
    {
      this.router := router;
    }

    /** Provider.Create; connects and opens say which endpoints accept a connection and give a page. */
    method Create(connects: seq<bool>, opens: seq<bool>) returns (r: Creation)
      requires router.Valid() && |connects| == |opens| == router.endpoints.Length
      modifies router`rrIndex, router.endpoints
      ensures router.Valid()
      ensures r.NoHealthyEndpoint? <==> router.endpoints.Length == 0
      ensures !r.NoHealthyEndpoint? ==>
        var eps, rr := old(router.endpoints[..]), router.strategy == "round-robin";
        && Takes(eps, rr, old(router.rrIndex), r.endpoint) && r.endpoint < |eps|
        && router.rrIndex == CounterAfter(eps, rr, old(router.rrIndex))
        && router.endpoints[..] == (if r.ConnectFailed? then Marked(eps, eps[r.endpoint].url) else eps)
        && (r.ConnectFailed? <==> !connects[r.endpoint])
        && (r.PageFailed? <==> connects[r.endpoint] && !opens[r.endpoint])
    {
      var ep := router.Pick();
      if ep.None? { return NoHealthyEndpoint; }
      var i := ep.value;
      if !connects[i] {
        router.MarkUnhealthy(router.endpoints[i].url);
        return ConnectFailed(i);
      }
      if !opens[i] { return PageFailed(i); }
      return Created(i);
    }
  }
}
