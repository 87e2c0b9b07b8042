/** What the fetch counters by type count, under any number of concurrent fetches. */
module FetchMeters {
  import opened Sums
  import opened PoolProtocol
  import opened FetchProtocol
  import opened FetchTheorems

  /** The blocked attempts with browsers of type k. */
  function BlocksOf(attempts: seq<Attempt>, k: Kind): nat {
    if attempts == [] then 0
    else
      var a := attempts[|attempts| - 1];
      BlocksOf(attempts[..|attempts| - 1], k) + if a.verdict.Blocked? && a.kind == k then 1 else 0
  }

  lemma BlocksOfPush(attempts: seq<Attempt>, a: Attempt, k: Kind)
    ensures (attempts + [a])[..|attempts + [a]| - 1] == attempts
    ensures BlocksOf(attempts + [a], k) == BlocksOf(attempts, k) + if a.verdict.Blocked? && a.kind == k then 1 else 0
  {
    assert (attempts + [a])[..|attempts|] == attempts;
  }

  /** The last attempt is a block that is not counted under its type yet. */
  predicate Pending(f: Fetcher) {
    (f.stage.Settling? && f.stage.verdict.Blocked?) || f.stage.BlockCounted?
  }

  function BlocksCounted(f: Fetcher, k: Kind): nat {
    BlocksOf(if Pending(f) && f.attempts != [] then f.attempts[..|f.attempts| - 1] else f.attempts, k)
  }

  function BlocksBy(k: Kind): Fetcher -> nat {
    (f: Fetcher) => BlocksCounted(f, k)
  }

  /** Calls that have returned a page got with a browser of type k. */
  function Wins(k: Kind): Fetcher -> nat {
    (f: Fetcher) => if f.stage.Succeeded? && f.stage.j < |f.chain| && f.chain[f.stage.j] == k then 1 else 0
  }

  /** The counters by type. */
  ghost predicate KindsOk(m: Meters, fs: seq<Fetcher>, k: Kind) {
    && Get(m.byKind, k) == SumOf(Wins(k), fs)
    && Get(m.blocksByKind, k) == SumOf(BlocksBy(k), fs)
  }

  /** A new attempt: if it is a block, it is pending. */
  lemma CountedPush(f: Fetcher, g: Fetcher, a: Attempt, k: Kind)
    requires g.attempts == f.attempts + [a] && !Pending(f) && Pending(g) == a.verdict.Blocked?
    ensures BlocksCounted(g, k) == BlocksCounted(f, k)
  {
    BlocksOfPush(f.attempts, a, k);
  }

  /** The attempt of a refused pass, or of one that ends: no block is counted yet. */
  lemma RefusalAdds(f: Fetcher, p: Phase, k: Kind)
    requires f.stage.Asking?
    ensures BlocksCounted(Next(f, p, AcquireReturns), k) == BlocksCounted(f, k)
  {
    if f.stage.j < |f.chain| && !p.Holding? {
      CountedPush(f, Next(f, p, AcquireReturns), Attempt(f.chain[f.stage.j], Refused), k);
    }
  }

  lemma ReturnAdds(f: Fetcher, p: Phase, k: Kind)
    requires f.stage.HandingBack?
    ensures BlocksCounted(Next(f, p, ReleaseReturns), k) == BlocksCounted(f, k)
  {
    if f.stage.j < |f.chain| {
      CountedPush(f, Next(f, p, ReleaseReturns), Attempt(f.chain[f.stage.j], f.stage.verdict), k);
    }
  }

  /** The block that is counted is that of the last attempt. */
  predicate LastBlocked(f: Fetcher) {
    && f.stage.BlockCounted? && |f.attempts| == f.stage.j + 1 <= |f.chain|
    && f.attempts[f.stage.j].verdict.Blocked? && f.attempts[f.stage.j].kind == f.chain[f.stage.j]
  }

  lemma RecordedBlock(f: Fetcher)
    requires f.stage.BlockCounted? && Recorded(f)
    ensures LastBlocked(f)
  {
    assert LastIs(f, f.stage.j, Blocked);
  }

  lemma BlockAdds(f: Fetcher, p: Phase, k: Kind)
    requires LastBlocked(f)
    ensures BlocksCounted(Next(f, p, CountBlockKind), k)
         == BlocksCounted(f, k) + if f.chain[f.stage.j] == k then 1 else 0
  {
  }

  lemma OthersAdd(f: Fetcher, p: Phase, move: FetchMove, k: Kind)
    requires !move.AcquireReturns? && !move.ReleaseReturns? && !move.CountBlockKind?
    requires Pending(Next(f, p, move)) == Pending(f)
    ensures BlocksCounted(Next(f, p, move), k) == BlocksCounted(f, k)
  {
  }

  lemma MoveBlocks(s: FetchState, i: nat, move: FetchMove, k: Kind)
    requires i < |s.fetchers| <= |s.pool.clients| && FetchEnabled(s, i, move) && Recorded(s.fetchers[i])
    ensures var f, p := s.fetchers[i], s.pool.clients[i];
      BlocksCounted(Next(f, p, move), k)
      == BlocksCounted(f, k)
         + if move.CountBlockKind? && f.stage.j < |f.chain| && f.chain[f.stage.j] == k then 1 else 0
  {
    var f, p := s.fetchers[i], s.pool.clients[i];
    if move.AcquireReturns? {
      RefusalAdds(f, p, k);
    } else if move.ReleaseReturns? {
      ReturnAdds(f, p, k);
    } else if move.CountBlockKind? {
      RecordedBlock(f);
      BlockAdds(f, p, k);
    } else {
      OthersAdd(f, p, move, k);
    }
  }

  lemma MeteredBlocks(s: FetchState, i: nat, move: FetchMove, k: Kind)
    requires i < |s.fetchers| <= |s.pool.clients| && FetchEnabled(s, i, move)
    ensures var f := s.fetchers[i];
      Get(Metered(s.meters, f, move).blocksByKind, k)
      == Get(s.meters.blocksByKind, k)
         + if move.CountBlockKind? && f.stage.j < |f.chain| && f.chain[f.stage.j] == k then 1 else 0
  {
  }

  lemma MoveWins(s: FetchState, i: nat, move: FetchMove, k: Kind)
    requires i < |s.fetchers| <= |s.pool.clients| && FetchEnabled(s, i, move)
    ensures var f, g := s.fetchers[i], Next(s.fetchers[i], s.pool.clients[i], move);
      Get(Metered(s.meters, f, move).byKind, k) + Wins(k)(f) == Get(s.meters.byKind, k) + Wins(k)(g)
  {
  }

  lemma BlocksStep(s: FetchState, i: nat, move: FetchMove, k: Kind)
    requires FetchInv(s) && i < |s.fetchers| && FetchEnabled(s, i, move)
    requires Get(s.meters.blocksByKind, k) == SumOf(BlocksBy(k), s.fetchers)
    ensures var t := FetchApply(s, Fetch(i, move)); Get(t.meters.blocksByKind, k) == SumOf(BlocksBy(k), t.fetchers)
  {
    MoveBlocks(s, i, move, k);
    MeteredBlocks(s, i, move, k);
    SumOfUpdate(BlocksBy(k), s.fetchers, i, Next(s.fetchers[i], s.pool.clients[i], move));
  }

  lemma WinsStep(s: FetchState, i: nat, move: FetchMove, k: Kind)
    requires FetchInv(s) && i < |s.fetchers| && FetchEnabled(s, i, move)
    requires Get(s.meters.byKind, k) == SumOf(Wins(k), s.fetchers)
    ensures var t := FetchApply(s, Fetch(i, move)); Get(t.meters.byKind, k) == SumOf(Wins(k), t.fetchers)
  {
    MoveWins(s, i, move, k);
    SumOfUpdate(Wins(k), s.fetchers, i, Next(s.fetchers[i], s.pool.clients[i], move));
  }

  lemma KindsStep(s: FetchState, a: FetchAction, k: Kind)
    requires FetchInv(s) && FetchActionEnabled(s, a) && KindsOk(s.meters, s.fetchers, k)
    ensures var t := FetchApply(s, a); KindsOk(t.meters, t.fetchers, k)
  {
    if a.Fetch? {
      BlocksStep(s, a.i, a.move, k);
      WinsStep(s, a.i, a.move, k);
    }
  }

  lemma {:induction false} KindsRun(s: FetchState, acts: seq<FetchAction>, k: Kind)
    requires FetchInv(s) && CanFetch(s, acts) && KindsOk(s.meters, s.fetchers, k)
    ensures var t := FetchRun(s, acts); KindsOk(t.meters, t.fetchers, k)
    decreases |acts|
  {
    if acts != [] {
      KindsStep(s, acts[0], k);
      FetchStepInv(s, acts[0]);
      KindsRun(FetchApply(s, acts[0]), acts[1..], k);
    }
  }

  /**
   At every step the fetches counted under a type are the calls that returned a page got
   with it, and the blocks counted under it are its blocked attempts, other than those
   that are just being counted.
   */
  lemma CountedByType(s: FetchState, k: Kind)
    requires FetchReachable(s)
    ensures KindsOk(s.meters, s.fetchers, k)
  {
    var s0, acts :| FetchInit(s0) && CanFetch(s0, acts) && FetchRun(s0, acts) == s;
    FetchInitInv(s0);
    SumOfZero(Wins(k), s0.fetchers);
    SumOfZero(BlocksBy(k), s0.fetchers);
    KindsRun(s0, acts, k);
  }
}
