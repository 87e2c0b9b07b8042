/** Failing Creates one after the other: how failover goes through the endpoints. */
module RouterFailover {
  import opened Router
  import opened RouterTheorems

  /** Provider.Create tried each of these in turn, could not connect, and no health check came between. */
  ghost predicate Tries(eps: seq<Endpoint>, rr: bool, c: nat, tried: seq<nat>)
    decreases |tried|
  {
    tried == []
    || (Takes(eps, rr, c, tried[0]) && tried[0] < |eps|
        && Tries(Marked(eps, eps[tried[0]].url), rr, CounterAfter(eps, rr, c), tried[1..]))
  }

  /** The endpoints after those Creates. */
  ghost function AfterTries(eps: seq<Endpoint>, tried: seq<nat>): seq<Endpoint>
    decreases |tried|
  {
    if tried == [] || tried[0] >= |eps| then eps else AfterTries(Marked(eps, eps[tried[0]].url), tried[1..])
  }

  /** The endpoints a strategy can take other than as the last resort. */
  predicate Candidate(eps: seq<Endpoint>, rr: bool, i: int) {
    if rr then Healthy(eps, i) else Eligible(eps, i)
  }

  function Candidates(eps: seq<Endpoint>, rr: bool): set<nat> {
    set i: nat | i < |eps| && Candidate(eps, rr, i)
  }

  // ---- what MarkUnhealthy marks ----

  /** The endpoint that could not be reached is marked, unless an earlier one has the same URL. */
  lemma MarksThePicked(eps: seq<Endpoint>, i: nat)
    requires Healthy(eps, i)
    ensures !Marked(eps, eps[i].url)[i].healthy <==> FirstWith(eps, eps[i].url) == i
  {
    MarkedAt(eps, eps[i].url);
  }

  /** Every candidate is the first endpoint with its URL. */
  predicate OwnMark(eps: seq<Endpoint>, rr: bool) {
    forall i | 0 <= i < |eps| && Candidate(eps, rr, i) :: FirstWith(eps, eps[i].url) == i
  }

  lemma {:induction false} MarkedKeepsUrls(eps: seq<Endpoint>, url: string)
    ensures forall i | 0 <= i < |eps| :: Marked(eps, url)[i].url == eps[i].url
  {
    MarkedAt(eps, url);
  }

  lemma {:induction false} FirstWithByUrls(eps: seq<Endpoint>, t: seq<Endpoint>, url: string)
    requires |t| == |eps| && forall i | 0 <= i < |eps| :: t[i].url == eps[i].url
    ensures FirstWith(t, url) == FirstWith(eps, url)
  {
    if eps != [] && eps[0].url != url { FirstWithByUrls(eps[1..], t[1..], url); }
  }

  /**
   A candidate behind another endpoint of its URL stays one: whichever URL is marked, it
   is not the endpoint marked.
   */
  lemma ShadowedStays(eps: seq<Endpoint>, rr: bool, i: nat, url: string)
    requires i < |eps| && Candidate(eps, rr, i) && FirstWith(eps, eps[i].url) != i
    ensures var t := Marked(eps, url);
      t[i] == eps[i] && Candidate(t, rr, i) && FirstWith(t, t[i].url) != i
  {
    MarkedAt(eps, url);
    MarkedKeepsUrls(eps, url);
    FirstWithByUrls(eps, Marked(eps, url), eps[i].url);
  }

  /** An endpoint behind an unhealthy one of the same URL is taken again and again, and the others never. */
  lemma {:induction false} StuckOnDuplicate(eps: seq<Endpoint>, c: nat, b: nat, tried: seq<nat>)
    requires IsLeast(eps, b) && !eps[FirstWith(eps, eps[b].url)].healthy
    requires Tries(eps, false, c, tried)
    ensures forall x | 0 <= x < |tried| :: tried[x] == b
    decreases |tried|
  {
    if tried != [] {
      LeastLoadedUnique(eps, tried[0], b);
      MarkedAt(eps, eps[b].url);
      assert Marked(eps, eps[b].url) == eps;
      StuckOnDuplicate(eps, c, b, tried[1..]);
    }
  }

  /** Such a list: the first two share a URL, and the third is never tried. */
  lemma StuckExample(c: nat, tried: seq<nat>)
    requires Tries([Endpoint("a", false, Pressure(0, 0, true)),
                    Endpoint("a", true, Pressure(0, 0, true)),
                    Endpoint("b", true, Pressure(0, 0, true))], false, c, tried)
    ensures 2 !in tried
  {
    var eps := [Endpoint("a", false, Pressure(0, 0, true)),
                Endpoint("a", true, Pressure(0, 0, true)),
                Endpoint("b", true, Pressure(0, 0, true))];
    assert eps[0].url == "a" == eps[1].url;
    assert FirstWith(eps, eps[1].url) == 0;
    assert IsLeast(eps, 1);
    StuckOnDuplicate(eps, c, 1, tried);
  }

  // ---- failover exhausts the candidates ----

  lemma DownCandidates(eps: seq<Endpoint>, t: seq<Endpoint>, rr: bool, i: nat)
    requires i < |eps| && t == eps[i := eps[i].(healthy := false)]
    ensures Candidates(t, rr) == Candidates(eps, rr) - {i}
  {
    forall k: nat ensures Candidate(t, rr, k) <==> Candidate(eps, rr, k) && k != i {
      assert k < |eps| && k != i ==> t[k] == eps[k];
    }
  }

  /** A failing Create takes a candidate that is the first with its URL off the list, and leaves the rest as it is. */
  lemma OneFewer(eps: seq<Endpoint>, rr: bool, i: nat)
    requires OwnMark(eps, rr) && i < |eps| && Candidate(eps, rr, i)
    ensures var t := Marked(eps, eps[i].url);
      && t == eps[i := eps[i].(healthy := false)]
      && OwnMark(t, rr)
      && Candidates(t, rr) == Candidates(eps, rr) - {i}
  {
    var t := Marked(eps, eps[i].url);
    MarkedAt(eps, eps[i].url);
    MarkedKeepsUrls(eps, eps[i].url);
    DownCandidates(eps, t, rr, i);
    forall k | 0 <= k < |t| && Candidate(t, rr, k) ensures FirstWith(t, t[k].url) == k {
      assert k in Candidates(t, rr);
      FirstWithByUrls(eps, t, eps[k].url);
    }
  }

  /** While there are candidates, a Pick takes one. */
  lemma TakesCandidate(eps: seq<Endpoint>, rr: bool, c: nat, i: nat)
    requires Takes(eps, rr, c, i) && Candidates(eps, rr) != {}
    requires rr ==> Seamless(|eps|, c + |eps|)
    ensures i in Candidates(eps, rr)
  {
    var k :| k in Candidates(eps, rr);
    if rr { PickFinds(eps, c, k); }
  }

  /** The counter does not wrap unevenly during that many Picks. */
  predicate Roomy(n: nat, c: nat, picks: nat)
    requires n > 0
  {
    Seamless(n, c + picks * n)
  }

  lemma RoomyNext(eps: seq<Endpoint>, c: nat, picks: nat)
    requires eps != [] && picks > 0 && c < COUNTER && Roomy(|eps|, c, picks)
    ensures Seamless(|eps|, c + |eps|)
    ensures Roomy(|eps|, CounterAfter(eps, true, c), picks - 1)
  {
    var n := |eps|;
    assert picks * n == (picks - 1) * n + n;
    assert (picks - 1) * n >= 0;
  }

  lemma OneMore(all: set<nat>, i: nat, tried: seq<nat>)
    requires tried != [] && tried[0] == i && i in all && multiset(tried[1..]) == multiset(all - {i})
    ensures multiset(tried) == multiset(all)
  {
    assert tried == [i] + tried[1..];
    assert all == {i} + (all - {i});
  }

  /** One failing Create, for the induction below. */
  lemma FirstTry(eps: seq<Endpoint>, rr: bool, c: nat, tried: seq<nat>)
    requires tried != [] && OwnMark(eps, rr) && Tries(eps, rr, c, tried) && Candidates(eps, rr) != {}
    requires rr ==> c < COUNTER && Roomy(|eps|, c, |tried|)
    ensures var i := tried[0]; var t := Marked(eps, eps[i].url);
      && i in Candidates(eps, rr) && OwnMark(t, rr) && Candidates(t, rr) == Candidates(eps, rr) - {i}
      && (rr ==> CounterAfter(eps, rr, c) < COUNTER && Roomy(|eps|, CounterAfter(eps, rr, c), |tried| - 1))
  {
    if rr { RoomyNext(eps, c, |tried|); }
    TakesCandidate(eps, rr, c, tried[0]);
    OneFewer(eps, rr, tried[0]);
  }

  /**
   Failover: if every candidate is the first endpoint with its URL, the first m failing
   Creates try each of the m candidates exactly once, and after them none is left.
   */
  lemma {:induction false} FailoverExhausts(eps: seq<Endpoint>, rr: bool, c: nat, tried: seq<nat>)
    requires OwnMark(eps, rr) && Tries(eps, rr, c, tried) && |tried| == |Candidates(eps, rr)|
    requires rr && eps != [] ==> c < COUNTER && Roomy(|eps|, c, |tried|)
    ensures multiset(tried) == multiset(Candidates(eps, rr))
    ensures Candidates(AfterTries(eps, tried), rr) == {}
    decreases |tried|
  {
    if tried == [] {
      assert Candidates(eps, rr) == {};
    } else {
      assert Candidates(eps, rr) != {};
      FirstTry(eps, rr, c, tried);
      FailoverExhausts(Marked(eps, eps[tried[0]].url), rr, CounterAfter(eps, rr, c), tried[1..]);
      OneMore(Candidates(eps, rr), tried[0], tried);
    }
  }

  /** Otherwise no number of failing Creates gets rid of the candidates. */
  lemma {:induction false} FailoverNever(eps: seq<Endpoint>, rr: bool, c: nat, tried: seq<nat>, i: nat)
    requires i < |eps| && Candidate(eps, rr, i) && FirstWith(eps, eps[i].url) != i
    requires Tries(eps, rr, c, tried)
    ensures i in Candidates(AfterTries(eps, tried), rr)
    decreases |tried|
  {
    if tried != [] {
      ShadowedStays(eps, rr, i, eps[tried[0]].url);
      FailoverNever(Marked(eps, eps[tried[0]].url), rr, CounterAfter(eps, rr, c), tried[1..], i);
    }
  }

  /** Exactly when failover exhausts the candidates, under either strategy. */
  lemma FailoverIff(eps: seq<Endpoint>, rr: bool, c: nat, tried: seq<nat>)
    requires Tries(eps, rr, c, tried) && |tried| == |Candidates(eps, rr)|
    requires rr && eps != [] ==> c < COUNTER && Roomy(|eps|, c, |tried|)
    ensures OwnMark(eps, rr) <==> Candidates(AfterTries(eps, tried), rr) == {}
  {
    if OwnMark(eps, rr) {
      FailoverExhausts(eps, rr, c, tried);
    } else {
      var i :| 0 <= i < |eps| && Candidate(eps, rr, i) && FirstWith(eps, eps[i].url) != i;
      FailoverNever(eps, rr, c, tried, i);
    }
  }

  lemma TriedIsCandidate(eps: seq<Endpoint>, c: nat, tried: seq<nat>, x: nat)
    requires OwnMark(eps, false) && Tries(eps, false, c, tried) && |tried| == |Candidates(eps, false)| && x < |tried|
    ensures tried[x] in Candidates(eps, false)
  {
    FailoverExhausts(eps, false, c, tried);
    assert tried[x] in multiset(tried);
  }

  lemma FirstIsLeast(eps: seq<Endpoint>, c: nat, i: nat, j: nat)
    requires Takes(eps, false, c, i) && j in Candidates(eps, false)
    ensures i < |eps| && j < |eps| && Before(eps, i, j)
  {
    TakesCandidate(eps, false, c, i);
  }

  /** Marking an endpoint does not change the order of the others. */
  lemma BeforeKept(eps: seq<Endpoint>, i: nat, j: nat, k: nat)
    requires i < |eps| && j < |eps| && k < |eps|
    ensures Before(eps[k := eps[k].(healthy := false)], i, j) == Before(eps, i, j)
  {
  }

  /** The tries of a list of candidates, as long as there are candidates. */
  ghost predicate FullTries(eps: seq<Endpoint>, c: nat, tried: seq<nat>) {
    OwnMark(eps, false) && Tries(eps, false, c, tried) && |tried| == |Candidates(eps, false)|
  }

  lemma RestTries(eps: seq<Endpoint>, c: nat, tried: seq<nat>)
    requires FullTries(eps, c, tried) && tried != []
    ensures tried[0] < |eps|
    ensures FullTries(eps[tried[0] := eps[tried[0]].(healthy := false)], c, tried[1..])
  {
    TakesCandidate(eps, false, c, tried[0]);
    OneFewer(eps, false, tried[0]);
  }

  /** Under least load they are tried in the order of load, equally loaded ones in the order of the list. */
  lemma {:induction false} FailoverInOrder(eps: seq<Endpoint>, c: nat, tried: seq<nat>, x: nat, y: nat)
    requires FullTries(eps, c, tried) && x < y < |tried|
    ensures tried[x] < |eps| && tried[y] < |eps| && Before(eps, tried[x], tried[y])
    decreases |tried|
  {
    if x == 0 {
      TriedIsCandidate(eps, c, tried, y);
      FirstIsLeast(eps, c, tried[0], tried[y]);
    } else {
      RestTries(eps, c, tried);
      FailoverInOrder(eps[tried[0] := eps[tried[0]].(healthy := false)], c, tried[1..], x - 1, y - 1);
      BeforeKept(eps, tried[x], tried[y], tried[0]);
    }
  }
  /** By requests: running and queued ones together, equally many in the order of the list. */
  lemma FailoverByRequests(eps: seq<Endpoint>, c: nat, tried: seq<nat>, x: nat, y: nat)
    requires FullTries(eps, c, tried) && x < y < |tried| && Countable(eps)
    ensures tried[x] < |eps| && tried[y] < |eps|
    ensures var p, q := eps[tried[x]].pressure, eps[tried[y]].pressure;
      || p.running + p.queued < q.running + q.queued
      || (p.running + p.queued == q.running + q.queued && tried[x] < tried[y])
  {
    FailoverInOrder(eps, c, tried, x, y);
    TriedIsCandidate(eps, c, tried, x);
    TriedIsCandidate(eps, c, tried, y);
    LoadIs(eps[tried[x]]);
    LoadIs(eps[tried[y]]);
    TriedOnce(eps, c, tried, x, y);
  }

  lemma TriedOnce(eps: seq<Endpoint>, c: nat, tried: seq<nat>, x: nat, y: nat)
    requires FullTries(eps, c, tried) && x < y < |tried|
    ensures tried[x] != tried[y]
  {
    FailoverExhausts(eps, false, c, tried);
    Twice(tried, x, y);
  }

  lemma Twice(s: seq<nat>, x: nat, y: nat)
    requires x < y < |s|
    ensures s[x] == s[y] ==> multiset(s)[s[x]] >= 2
  {
    assert s == s[..y] + s[y..];
    assert s[x] in s[..y] && s[y] in s[y..];
    assert multiset(s)[s[x]] == multiset(s[..y])[s[x]] + multiset(s[y..])[s[x]];
  }
}
