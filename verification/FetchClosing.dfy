/** Concurrent fetches and Close; and what becomes of the browser of a visit without connection error. */
module FetchClosing {
  import opened PoolProtocol
  import opened PoolInvariant
  import opened PoolTheorems
  import opened PoolClosing
  import opened FetchProtocol
  import opened FetchTheorems

  // ---- a fetch after Close ----

  /** The call has no browser and none promised, and its attempts from n on were refused. */
  predicate ShutOut(f: Fetcher, p: Phase, n: nat) {
    && p.Outside? && (f.stage.Ready? || f.stage.Head? || f.stage.Asking? || f.stage.Failed?)
    && n <= |f.attempts| && forall x | n <= x < |f.attempts| :: f.attempts[x].verdict.Refused?
  }

  lemma BeginShut(s: State, i: nat, move: Move, j: nat)
    requires s.closed && StartsCall(move) && j < |s.clients| && s.clients[j].Outside?
    ensures var t := Apply(s, Client(i, move)); t.closed && |t.clients| == |s.clients| && t.clients[j].Outside?
  {
  }

  lemma MoveShut(s: FetchState, i: nat, move: FetchMove, j: nat)
    requires i < |s.fetchers| <= |s.pool.clients| && FetchEnabled(s, i, move)
    requires s.pool.closed && j < |s.fetchers| && s.pool.clients[j].Outside?
    ensures var t := FetchApply(s, Fetch(i, move)).pool;
      t.closed && |t.clients| == |s.pool.clients| && t.clients[j].Outside?
  {
    var f := s.fetchers[i];
    match move
    case CallAcquire => BeginShut(s.pool, i, BeginAcquire(f.chain[f.stage.j]), j);
    case VisitEnds(v) => BeginShut(s.pool, i, BeginRelease(v.Errored? && v.connection), j);
    case _ =>
  }

  lemma ShutStep(s: FetchState, a: FetchAction, i: nat, n: nat)
    requires s.pool.closed && i < |s.fetchers| <= |s.pool.clients| && FetchActionEnabled(s, a)
    requires ShutOut(s.fetchers[i], s.pool.clients[i], n)
    ensures var t := FetchApply(s, a);
      && t.pool.closed && |t.fetchers| == |s.fetchers| && |t.pool.clients| == |s.pool.clients|
      && ShutOut(t.fetchers[i], t.pool.clients[i], n)
  {
    match a
    case InPool(b) => OutsideStep(s.pool, b, i);
    case Fetch(j, move) => MoveShut(s, j, move, i);
  }

  /**
   A call that is not inside Acquire or Release when Close sets the flag, in particular
   one that starts later, visits no page any more: each further attempt is refused, and
   it can only fail.
   */
  lemma {:induction false} NoMorePages(s: FetchState, acts: seq<FetchAction>, i: nat, n: nat)
    requires s.pool.closed && i < |s.fetchers| <= |s.pool.clients| && CanFetch(s, acts)
    requires ShutOut(s.fetchers[i], s.pool.clients[i], n)
    ensures var t := FetchRun(s, acts);
      && |t.fetchers| == |s.fetchers| && |t.pool.clients| == |s.pool.clients|
      && ShutOut(t.fetchers[i], t.pool.clients[i], n)
    decreases |acts|
  {
    if acts != [] {
      ShutStep(s, acts[0], i, n);
      NoMorePages(FetchApply(s, acts[0]), acts[1..], i, n);
    }
  }

  /** So a call that starts after Close ends, if it does, with one refused attempt for each type of its chain. */
  lemma StartedAfterClose(s: FetchState, acts: seq<FetchAction>, i: nat)
    requires FetchReachable(s) && s.pool.closed && i < |s.fetchers| && s.fetchers[i].stage.Ready?
    requires CanFetch(s, acts)
    ensures var t := FetchRun(s, acts);
      && |t.fetchers| == |s.fetchers|
      && var f := t.fetchers[i];
         && !f.stage.Visiting? && !f.stage.Succeeded?
         && (forall x | 0 <= x < |f.attempts| :: f.attempts[x].verdict.Refused?)
         && (f.stage.Failed? ==> |f.attempts| == |f.chain|)
  {
    FetchReachableInv(s);
    assert Coupled(s.fetchers[i], s.pool.clients[i]) && Recorded(s.fetchers[i]);
    NoMorePages(s, acts, i, 0);
    FetchRunInv(s, acts);
    assert Recorded(FetchRun(s, acts).fetchers[i]);
  }

  // ---- a visit without connection error ----

  lemma BeginGoesBack(s: State, i: nat, b: Browser)
    requires !s.closed && i < |s.clients| && s.clients[i].Holding? && s.clients[i].browser == b
    ensures var t := Apply(s, Client(i, BeginRelease(false))); GoingBack(t, i, b) && t.created == s.created
  {
  }

  lemma HeldIsCreated(s: State, i: nat)
    requires Kinds(s) && i < |s.clients| && s.clients[i].Holding?
    ensures s.clients[i].browser < |s.created|
  {
    assert KindOk(s, s.clients[i]);
  }

  /** Only the release itself moves its client. */
  lemma FetchGoingStep(s: FetchState, a: FetchAction, i: nat, b: Browser)
    requires FetchInv(s) && FetchActionEnabled(s, a) && i < |s.fetchers|
    requires GoingBack(s.pool, i, b) && b < |s.pool.created|
    ensures var t := FetchApply(s, a).pool;
      b < |t.created| && (t.crashed || GoingBack(t, i, b) || BackOnTop(t, b))
  {
    assert Coupled(s.fetchers[i], s.pool.clients[i]);
    match a
    case InPool(c) => GoingBackStep(s.pool, c, i, b);
    case Fetch(j, move) => NextCoupled(s, j, move); PoolAfterKeeps(s, j, move);
  }

  lemma PoolAfterKeeps(s: FetchState, j: nat, move: FetchMove)
    requires j < |s.fetchers|
    ensures PoolAfter(s.pool, j, s.fetchers[j], move).created == s.pool.created
  {
  }

  lemma CanFetchAfter(s: FetchState, a: FetchAction, rest: seq<FetchAction>)
    requires FetchActionEnabled(s, a) && CanFetch(FetchApply(s, a), rest)
    ensures CanFetch(s, [a] + rest) && FetchRun(s, [a] + rest) == FetchRun(FetchApply(s, a), rest)
  {
    assert ([a] + rest)[1..] == rest;
  }

  /** The client is on its way to put b back, or b was back at some point of the run, or the pool panicked. */
  ghost predicate PutBackBy(s: FetchState, acts: seq<FetchAction>, i: nat, b: Browser)
    requires CanFetch(s, acts)
  {
    || FetchRun(s, acts).pool.crashed || GoingBack(FetchRun(s, acts).pool, i, b)
    || exists n | 0 <= n <= |acts| :: CanFetch(s, acts[..n]) && BackOnTop(FetchRun(s, acts[..n]).pool, b)
  }

  lemma PutBackLater(s: FetchState, acts: seq<FetchAction>, i: nat, b: Browser)
    requires acts != [] && CanFetch(s, acts)
    requires var t := FetchApply(s, acts[0]); BackOnTop(t.pool, b) || PutBackBy(t, acts[1..], i, b)
    ensures PutBackBy(s, acts, i, b)
  {
    var a, rest, t := acts[0], acts[1..], FetchApply(s, acts[0]);
    if BackOnTop(t.pool, b) {
      CanFetchAfter(s, a, []);
      assert acts[..1] == [a] + [];
    } else if n :| 0 <= n <= |rest| && CanFetch(t, rest[..n]) && BackOnTop(FetchRun(t, rest[..n]).pool, b) {
      CanFetchAfter(s, a, rest[..n]);
      assert acts[..n + 1] == [a] + rest[..n];
    }
  }

  /** What one action leaves of a client that is on its way. */
  lemma GoodFetchStep(s: FetchState, a: FetchAction, i: nat, b: Browser)
    requires FetchInv(s) && FetchActionEnabled(s, a) && i < |s.fetchers|
    requires b < |s.pool.created| && GoingBack(s.pool, i, b)
    ensures var t := FetchApply(s, a);
      && FetchInv(t) && |t.fetchers| == |s.fetchers| && b < |t.pool.created|
      && (t.pool.crashed || GoingBack(t.pool, i, b) || BackOnTop(t.pool, b))
  {
    FetchStepInv(s, a);
    FetchGoingStep(s, a, i, b);
  }

  lemma {:induction false} GoodFetchRun(s: FetchState, acts: seq<FetchAction>, i: nat, b: Browser)
    requires FetchInv(s) && CanFetch(s, acts) && i < |s.fetchers|
    requires b < |s.pool.created| && (s.pool.crashed || GoingBack(s.pool, i, b))
    ensures PutBackBy(s, acts, i, b)
    decreases |acts|
  {
    if s.pool.crashed {
      assert acts == [];
    } else if acts != [] {
      var t := FetchApply(s, acts[0]);
      GoodFetchStep(s, acts[0], i, b);
      if !BackOnTop(t.pool, b) { GoodFetchRun(t, acts[1..], i, b); }
      PutBackLater(s, acts, i, b);
    }
  }

  /**
   A visit that ended while the pool was open, with a usable page, a block or an error
   that is no connection error: on any later run its browser is on the way back, or was
   put back on top of the stack of its type, unless the append panicked.
   */
  lemma GoodVisitGoesBack(s: FetchState, i: nat, v: Verdict, acts: seq<FetchAction>)
    requires FetchReachable(s) && i < |s.fetchers| <= |s.pool.clients|
    requires FetchEnabled(s, i, VisitEnds(v)) && !s.pool.closed && (v.Errored? ==> !v.connection)
    requires CanFetch(FetchApply(s, Fetch(i, VisitEnds(v))), acts)
    ensures PutBackBy(FetchApply(s, Fetch(i, VisitEnds(v))), acts, i, s.pool.clients[i].browser)
  {
    var b := s.pool.clients[i].browser;
    FetchReachableInv(s);
    FetchStepInv(s, Fetch(i, VisitEnds(v)));
    HeldIsCreated(s.pool, i);
    BeginGoesBack(s.pool, i, b);
    GoodFetchRun(FetchApply(s, Fetch(i, VisitEnds(v))), acts, i, b);
  }
}
