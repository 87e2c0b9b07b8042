/** What holds of every reachable state of concurrent fetches over one pool. */
module FetchTheorems {
  import opened Sums
  import opened PoolProtocol
  import opened PoolInvariant
  import opened PoolTheorems
  import opened PoolCalls
  import opened FetchProtocol
  import ConnectionErrors
  import FetchLoop

  ghost predicate CanFetch(s: FetchState, acts: seq<FetchAction>)
    decreases |acts|
  {
    acts == [] || (FetchActionEnabled(s, acts[0]) && CanFetch(FetchApply(s, acts[0]), acts[1..]))
  }

  ghost function FetchRun(s: FetchState, acts: seq<FetchAction>): FetchState
    requires CanFetch(s, acts)
    decreases |acts|
  {
    if acts == [] then s else FetchRun(FetchApply(s, acts[0]), acts[1..])
  }

  ghost predicate FetchReachable(s: FetchState) {
    exists s0, acts :: FetchInit(s0) && CanFetch(s0, acts) && FetchRun(s0, acts) == s
  }

  lemma {:induction false} FetchRunInv(s: FetchState, acts: seq<FetchAction>)
    requires FetchInv(s) && CanFetch(s, acts)
    ensures FetchInv(FetchRun(s, acts))
    decreases |acts|
  {
    if acts != [] {
      FetchStepInv(s, acts[0]);
      FetchRunInv(FetchApply(s, acts[0]), acts[1..]);
    }
  }

  lemma FetchReachableInv(s: FetchState)
    requires FetchReachable(s)
    ensures FetchInv(s)
  {
    var s0, acts :| FetchInit(s0) && CanFetch(s0, acts) && FetchRun(s0, acts) == s;
    FetchInitInv(s0);
    FetchRunInv(s0, acts);
  }

  lemma {:induction false} FetchAppend(s: FetchState, acts: seq<FetchAction>, a: FetchAction)
    requires CanFetch(s, acts) && FetchActionEnabled(FetchRun(s, acts), a)
    ensures CanFetch(s, acts + [a]) && FetchRun(s, acts + [a]) == FetchApply(FetchRun(s, acts), a)
    decreases |acts|
  {
    var all := acts + [a];
    if acts == [] {
      assert all[1..] == [] && CanFetch(FetchApply(s, a), []);
    } else {
      FetchAppend(FetchApply(s, acts[0]), acts[1..], a);
      assert all[0] == acts[0] && all[1..] == acts[1..] + [a];
    }
  }

  lemma FetchReachableStep(s: FetchState, a: FetchAction)
    requires FetchReachable(s) && FetchActionEnabled(s, a)
    ensures FetchReachable(FetchApply(s, a))
  {
    var s0, acts :| FetchInit(s0) && CanFetch(s0, acts) && FetchRun(s0, acts) == s;
    FetchAppend(s0, acts, a);
  }

  // ---- every run of fetchers is a run of the pool ----

  lemma StepIsPoolRun(s: FetchState, a: FetchAction)
    requires FetchInv(s) && FetchActionEnabled(s, a)
    ensures Leads(s.pool, FetchApply(s, a).pool)
  {
    match a
    case InPool(b) => LeadsBy(s.pool, b);
    case Fetch(i, move) =>
      var f := s.fetchers[i];
      match move
      case CallAcquire => LeadsBy(s.pool, Client(i, BeginAcquire(f.chain[f.stage.j])));
      case VisitEnds(v) => LeadsBy(s.pool, Client(i, BeginRelease(v.Errored? && v.connection)));
      case _ => LeadsSelf(s.pool);
  }

  lemma {:induction false} RunIsPoolRun(s: FetchState, acts: seq<FetchAction>)
    requires FetchInv(s) && CanFetch(s, acts)
    ensures Leads(s.pool, FetchRun(s, acts).pool)
    decreases |acts|
  {
    if acts == [] {
      LeadsSelf(s.pool);
    } else {
      var t := FetchApply(s, acts[0]);
      StepIsPoolRun(s, acts[0]);
      FetchStepInv(s, acts[0]);
      RunIsPoolRun(t, acts[1..]);
      LeadsTrans(s.pool, t.pool, FetchRun(s, acts).pool);
    }
  }

  /** So the theorems about the pool hold under any number of concurrent fetches. */
  lemma PoolReachable(s: FetchState)
    requires FetchReachable(s)
    ensures Reachable(s.pool)
  {
    var s0, acts :| FetchInit(s0) && CanFetch(s0, acts) && FetchRun(s0, acts) == s;
    FetchInitInv(s0);
    RunIsPoolRun(s0, acts);
    var poolActs :| CanRun(s0.pool, poolActs) && Run(s0.pool, poolActs) == s.pool;
  }

  // ---- one call ----

  /** A call has a browser only between an Acquire and its Release; before the next pass and at its end it has none. */
  lemma HoldsOnlyInside(s: FetchState, i: nat)
    requires FetchReachable(s) && i < |s.fetchers|
    ensures i < |s.pool.clients|
    ensures HasBrowser(s.pool.clients[i]) ==>
      var st := s.fetchers[i].stage; st.Asking? || st.Visiting? || st.HandingBack?
  {
    FetchReachableInv(s);
    assert Coupled(s.fetchers[i], s.pool.clients[i]);
  }

  /** While a page is visited, the call holds a browser of the kind its chain asks for. */
  lemma VisitsRightKind(s: FetchState, i: nat)
    requires FetchReachable(s) && i < |s.fetchers| && s.fetchers[i].stage.Visiting?
    ensures i < |s.pool.clients|
    ensures var f := s.fetchers[i]; var p := s.pool.clients[i];
      f.stage.j < |f.chain| && p.Holding? && KindOf(s.pool, p.browser) == f.chain[f.stage.j]
  {
    FetchReachableInv(s);
    assert Coupled(s.fetchers[i], s.pool.clients[i]);
    assert KindOk(s.pool, s.pool.clients[i]);
  }

  /**
   The result of a call. Success at index j: the attempts are those of the kinds up
   to j, the last one usable and no earlier one. Failure: every kind was tried.
   */
  lemma FirstUsableWins(s: FetchState, i: nat)
    requires FetchReachable(s) && i < |s.fetchers|
    ensures var f := s.fetchers[i];
      && (f.stage.Succeeded? ==>
            && |f.attempts| == f.stage.j + 1 <= |f.chain|
            && f.attempts[f.stage.j].verdict.Usable?
            && forall x | 0 <= x < f.stage.j :: !f.attempts[x].verdict.Usable?)
      && (f.stage.Failed? ==>
            && |f.attempts| == |f.chain|
            && forall x | 0 <= x < |f.chain| :: !f.attempts[x].verdict.Usable?)
      && forall x | 0 <= x < |f.attempts| :: x < |f.chain| && f.attempts[x].kind == f.chain[x]
  {
    FetchReachableInv(s);
    var f := s.fetchers[i];
    assert Recorded(f);
    if f.stage.Succeeded? {
      assert LastIs(f, f.stage.j, Usable);
      assert forall x | 0 <= x < f.stage.j :: f.attempts[..f.stage.j][x] == f.attempts[x];
    }
  }

  // ---- the same result as the uninterrupted loop ----

  /** The verdict of a pass of the sequential loop. */
  function VerdictOf(p: FetchLoop.Pass): Verdict {
    match p
    case Refused(_, _) => Refused
    case Visited(_, a, _) =>
      if a.err.Some? then Errored(ConnectionErrors.IsConnectionError(a.err))
      else if a.blocked then Blocked else Usable
  }

  lemma SameVerdict(chain: seq<Kind>, script: seq<FetchLoop.Pass>, n: nat, j: nat)
    requires j < n <= |chain| && n <= |script|
    ensures FetchLoop.Usable(FetchLoop.Attempts(chain, script, n)[j]) <==> VerdictOf(script[j]).Usable?
    ensures FetchLoop.Attempts(chain, script, n)[j].kind == chain[j]
  {
    FetchLoop.AttemptAt(chain, script, n, j);
  }

  /** What FetchLoop.Fetcher.TryChain ensures of its result. */
  predicate LoopResult(chain: seq<Kind>, script: seq<FetchLoop.Pass>, n: nat, ok: bool) {
    && n <= |chain| && n <= |script|
    && var attempts := FetchLoop.Attempts(chain, script, n);
       if ok then FetchLoop.FirstUsable(attempts) else n == |chain| && FetchLoop.NoneUsable(attempts)
  }

  lemma LoopStopsAt(chain: seq<Kind>, script: seq<FetchLoop.Pass>, n: nat, ok: bool)
    requires LoopResult(chain, script, n, ok)
    ensures forall j | 0 <= j < n && (ok ==> j < n - 1) :: !VerdictOf(script[j]).Usable?
    ensures ok ==> n > 0 && VerdictOf(script[n - 1]).Usable?
  {
    var attempts := FetchLoop.Attempts(chain, script, n);
    forall j | 0 <= j < n ensures FetchLoop.Usable(attempts[j]) <==> VerdictOf(script[j]).Usable? {
      SameVerdict(chain, script, n, j);
    }
    if ok { assert forall j | 0 <= j < n - 1 :: attempts[..n - 1][j] == attempts[j]; }
  }

  /**
   A concurrent call that has returned tried what the sequential loop tries when
   Acquire, the pages and the detector answer it the same, and ended as that one does.
   */
  lemma SameAsTheLoop(s: FetchState, i: nat, script: seq<FetchLoop.Pass>, n: nat, ok: bool)
    requires FetchReachable(s) && i < |s.fetchers|
    requires s.fetchers[i].stage.Succeeded? || s.fetchers[i].stage.Failed?
    requires |s.fetchers[i].attempts| <= |script|
    requires forall j | 0 <= j < |s.fetchers[i].attempts| ::
      s.fetchers[i].attempts[j].verdict == VerdictOf(script[j])
    requires LoopResult(s.fetchers[i].chain, script, n, ok)
    ensures ok == s.fetchers[i].stage.Succeeded? && n == |s.fetchers[i].attempts|
  {
    FirstUsableWins(s, i);
    LoopStopsAt(s.fetchers[i].chain, script, n, ok);
  }

  // ---- connection errors, from the page to the idle stacks ----

  /**
   A visit whose first failing operation reports a connection error, ended while the
   pool is open: its browser is in no idle stack in any state of any later run.
   */
  lemma ConnectionErrorNeverIdle(s: FetchState, i: nat, graphic: char -> bool, url: string, visit: FetchLoop.Visit,
      acts: seq<FetchAction>)
    requires FetchReachable(s) && i < |s.fetchers| <= |s.pool.clients| && s.pool.clients[i].Holding?
    requires s.fetchers[i].stage.Visiting? && !s.pool.closed && !s.pool.crashed
    requires ConnectionErrors.IsConnectionError(FetchLoop.Cause(visit))
    requires var b := s.pool.clients[i].browser;
      var v := VerdictOf(FetchLoop.Visited(b, FetchLoop.TryFetch(graphic, url, visit), 0));
      CanFetch(FetchApply(s, Fetch(i, VisitEnds(v))), acts)
    ensures var b := s.pool.clients[i].browser;
      var v := VerdictOf(FetchLoop.Visited(b, FetchLoop.TryFetch(graphic, url, visit), 0));
      forall k, j :: !Idle(FetchRun(FetchApply(s, Fetch(i, VisitEnds(v))), acts).pool, k, j, b)
  {
    var b := s.pool.clients[i].browser;
    FetchLoop.TryFetchConnection(graphic, url, visit);
    var v := Errored(true);
    assert VerdictOf(FetchLoop.Visited(b, FetchLoop.TryFetch(graphic, url, visit), 0)) == v;
    BrokenVisit(s, i, b, acts);
  }

  lemma BrokenVisitLeaves(s: FetchState, i: nat, b: Browser)
    requires i < |s.fetchers| <= |s.pool.clients|
    requires s.pool.clients[i].Holding? && s.pool.clients[i].browser == b
    requires s.fetchers[i].stage.Visiting? && !s.pool.closed && !s.pool.crashed
    ensures var a := Fetch(i, VisitEnds(Errored(true)));
      && FetchActionEnabled(s, a)
      && |FetchApply(s, a).pool.clients| == |s.pool.clients|
      && FetchApply(s, a).pool.clients[i] == Leaving(b, true)
  {
  }

  lemma LeavingNeverIdle(s: FetchState, i: nat, b: Browser, acts: seq<FetchAction>)
    requires FetchReachable(s) && i < |s.pool.clients| && s.pool.clients[i] == Leaving(b, true) && CanFetch(s, acts)
    ensures forall k, j :: !Idle(FetchRun(s, acts).pool, k, j, b)
  {
    FetchReachableInv(s);
    PoolReachable(s);
    RunIsPoolRun(s, acts);
    var poolActs :| CanRun(s.pool, poolActs) && Run(s.pool, poolActs) == FetchRun(s, acts).pool;
    BrokenNeverIdle(s.pool, i, b, poolActs);
  }

  lemma BrokenVisit(s: FetchState, i: nat, b: Browser, acts: seq<FetchAction>)
    requires FetchReachable(s) && i < |s.fetchers| <= |s.pool.clients|
    requires s.pool.clients[i].Holding? && s.pool.clients[i].browser == b
    requires s.fetchers[i].stage.Visiting? && !s.pool.closed && !s.pool.crashed
    requires CanFetch(FetchApply(s, Fetch(i, VisitEnds(Errored(true)))), acts)
    ensures forall k, j :: !Idle(FetchRun(FetchApply(s, Fetch(i, VisitEnds(Errored(true)))), acts).pool, k, j, b)
  {
    var a := Fetch(i, VisitEnds(Errored(true)));
    BrokenVisitLeaves(s, i, b);
    FetchReachableStep(s, a);
    LeavingNeverIdle(FetchApply(s, a), i, b, acts);
  }

  // ---- the counters ----

  /** At every step, and with nothing in flight the counters of kinds agree with the totals. */
  lemma FetchMetrics(s: FetchState)
    requires FetchReachable(s)
    ensures s.meters.total == s.meters.success + s.meters.allFail + SumOf(InFlight, s.fetchers)
    ensures s.meters.success == SumOf(Successes, s.fetchers) && s.meters.fallback == SumOf(FellBack, s.fetchers)
    ensures (forall i | 0 <= i < |s.fetchers| ::
               var st := s.fetchers[i].stage; st.Ready? || st.Succeeded? || st.Failed?) ==>
      && s.meters.total == s.meters.success + s.meters.allFail
      && s.meters.success == MapSum(s.meters.byKind)
      && s.meters.blocked == MapSum(s.meters.blocksByKind)
      && s.meters.fallback <= s.meters.success
  {
    FetchReachableInv(s);
    if forall i | 0 <= i < |s.fetchers| ::
         var st := s.fetchers[i].stage; st.Ready? || st.Succeeded? || st.Failed? {
      SumOfZero(InFlight, s.fetchers);
      SumOfZero(Unkinded, s.fetchers);
      SumOfZero(UnkindedBlock, s.fetchers);
      SumOfBelow(FellBack, s.fetchers, Successes, s.fetchers);
    }
  }
}
