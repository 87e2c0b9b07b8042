/**
Any number of FetchWithFallback calls at once, as clients of one pool that other
clients, the eviction tick and Close use as well. A fetcher's moves inside
Acquire and Release are the moves of its pool client.
*/
module FetchProtocol {
  import opened Sums
  import opened PoolProtocol
  import opened PoolInvariant

  /** How one attempt ended. */
  datatype Verdict = Refused | Errored(connection: bool) | Blocked | Usable

  datatype Attempt = Attempt(kind: Kind, verdict: Verdict)

  /** Where a call is; j is the index into its chain. */
  datatype Stage =
    | Ready
    | Head(j: nat)
    | Asking(j: nat)                          // inside Acquire
    | Visiting(j: nat)                        // inside tryFetch
    | HandingBack(j: nat, verdict: Verdict)   // inside Release
    | Settling(j: nat, verdict: Verdict)      // the attempt is recorded
    | BlockCounted(j: nat)
    | Winning(j: nat)                         // FetchFallback is counted if it had to be
    | Won(j: nat)                             // FetchSuccess is counted
    | Succeeded(j: nat)
    | Failed

  datatype Fetcher = Fetcher(chain: seq<Kind>, stage: Stage, attempts: seq<Attempt>)

  /** The fetch counters of browser.Metrics. */
  datatype Meters = Meters(
    total: nat, success: nat, blocked: nat, fallback: nat, allFail: nat,
    byKind: map<Kind, nat>, blocksByKind: map<Kind, nat>)

  /** Fetcher i is client i of the pool. */
  datatype FetchState = FetchState(pool: State, fetchers: seq<Fetcher>, meters: Meters)

  datatype FetchMove =
    | Start
    | CallAcquire
    | AcquireReturns
    | VisitEnds(verdict: Verdict)
    | ReleaseReturns
    | NextPass
    | CountBlock
    | CountBlockKind
    | CountFallback
    | CountSuccess
    | CountFetchKind
    | GiveUpAll

  datatype FetchAction =
    | InPool(a: Action)
    | Fetch(i: nat, move: FetchMove)

  predicate StartsCall(m: Move) {
    m.BeginAcquire? || m.BeginRelease?
  }

  ghost predicate PoolActionEnabled(s: FetchState, a: Action) {
    && Enabled(s.pool, a)
    && (a.Client? && a.i < |s.fetchers| ==>
          !StartsCall(a.move) && (s.fetchers[a.i].stage.Asking? || s.fetchers[a.i].stage.HandingBack?))
  }

  predicate FetchEnabled(s: FetchState, i: nat, move: FetchMove)
    requires i < |s.fetchers| <= |s.pool.clients|
  {
    var f, p := s.fetchers[i], s.pool.clients[i];
    && !s.pool.crashed
    && match move
       case Start => f.stage.Ready?
       case CallAcquire => f.stage.Head? && f.stage.j < |f.chain| && p.Outside?
       case AcquireReturns => f.stage.Asking? && f.stage.j < |f.chain| && (p.Outside? || p.Holding?)
       case VisitEnds(v) => f.stage.Visiting? && p.Holding? && !v.Refused?
       case ReleaseReturns => f.stage.HandingBack? && f.stage.j < |f.chain| && p.Outside?
       case NextPass => f.stage.Settling? && f.stage.verdict.Errored?
       case CountBlock => f.stage.Settling? && f.stage.verdict.Blocked?
       case CountBlockKind => f.stage.BlockCounted? && f.stage.j < |f.chain|
       case CountFallback => f.stage.Settling? && f.stage.verdict.Usable?
       case CountSuccess => f.stage.Winning?
       case CountFetchKind => f.stage.Won? && f.stage.j < |f.chain|
       case GiveUpAll => f.stage.Head? && f.stage.j == |f.chain|
  }

  /** The fetcher after its move. */
  function Next(f: Fetcher, p: Phase, move: FetchMove): Fetcher {
    match move
    case Start => f.(stage := Head(0))
    case CallAcquire => if f.stage.Head? then f.(stage := Asking(f.stage.j)) else f
    case AcquireReturns =>
      if !f.stage.Asking? || f.stage.j >= |f.chain| then f
      else if p.Holding? then f.(stage := Visiting(f.stage.j))
      else f.(stage := Head(f.stage.j + 1), attempts := f.attempts + [Attempt(f.chain[f.stage.j], Refused)])
    case VisitEnds(v) => if f.stage.Visiting? then f.(stage := HandingBack(f.stage.j, v)) else f
    case ReleaseReturns =>
      if !f.stage.HandingBack? || f.stage.j >= |f.chain| then f
      else f.(stage := Settling(f.stage.j, f.stage.verdict),
              attempts := f.attempts + [Attempt(f.chain[f.stage.j], f.stage.verdict)])
    case NextPass => if f.stage.Settling? then f.(stage := Head(f.stage.j + 1)) else f
    case CountBlock => if f.stage.Settling? then f.(stage := BlockCounted(f.stage.j)) else f
    case CountBlockKind => if f.stage.BlockCounted? then f.(stage := Head(f.stage.j + 1)) else f
    case CountFallback => if f.stage.Settling? then f.(stage := Winning(f.stage.j)) else f
    case CountSuccess => if f.stage.Winning? then f.(stage := Won(f.stage.j)) else f
    case CountFetchKind => if f.stage.Won? then f.(stage := Succeeded(f.stage.j)) else f
    case GiveUpAll => f.(stage := Failed)
  }

  /** The counters after a fetcher's move. */
  function Metered(m: Meters, f: Fetcher, move: FetchMove): Meters {
    match move
    case Start => m.(total := m.total + 1)
    case CountBlock => m.(blocked := m.blocked + 1)
    case CountBlockKind =>
      if f.stage.BlockCounted? && f.stage.j < |f.chain|
      then m.(blocksByKind := Bump(m.blocksByKind, f.chain[f.stage.j])) else m
    case CountFallback =>
      if f.stage.Settling? && f.stage.j > 0 then m.(fallback := m.fallback + 1) else m
    case CountSuccess => m.(success := m.success + 1)
    case CountFetchKind =>
      if f.stage.Won? && f.stage.j < |f.chain|
      then m.(byKind := Bump(m.byKind, f.chain[f.stage.j])) else m
    case GiveUpAll => m.(allFail := m.allFail + 1)
    case _ => m
  }

  /** The calls into the pool that a fetcher's move begins. */
  ghost function PoolAfter(pool: State, i: nat, f: Fetcher, move: FetchMove): State {
    match move
    case CallAcquire =>
      if f.stage.Head? && f.stage.j < |f.chain|
      then Apply(pool, Client(i, BeginAcquire(f.chain[f.stage.j]))) else pool
    case VisitEnds(v) => Apply(pool, Client(i, BeginRelease(v.Errored? && v.connection)))
    case _ => pool
  }

  ghost predicate FetchActionEnabled(s: FetchState, a: FetchAction) {
    && |s.fetchers| <= |s.pool.clients|
    && match a
       case InPool(b) => PoolActionEnabled(s, b)
       case Fetch(i, move) => i < |s.fetchers| && FetchEnabled(s, i, move)
  }

  ghost function FetchApply(s: FetchState, a: FetchAction): FetchState {
    match a
    case InPool(b) => s.(pool := Apply(s.pool, b))
    case Fetch(i, move) =>
      if i < |s.fetchers| <= |s.pool.clients| then
        FetchState(PoolAfter(s.pool, i, s.fetchers[i], move),
                   s.fetchers[i := Next(s.fetchers[i], s.pool.clients[i], move)],
                   Metered(s.meters, s.fetchers[i], move))
      else s
  }

  ghost predicate FetchInit(s: FetchState) {
    && Init(s.pool) && |s.fetchers| <= |s.pool.clients|
    && (forall i | 0 <= i < |s.fetchers| :: s.fetchers[i].stage.Ready? && s.fetchers[i].attempts == [])
    && s.meters == Meters(0, 0, 0, 0, 0, map[], map[])
  }

  // ---- invariants ----

  predicate InAcquire(p: Phase, k: Kind) {
    match p
    case Outside => true
    case Undoing => true
    case Failing => true
    case Admitted(kind) => kind == k
    case Queued(kind) => kind == k
    case Looping(kind, _) => kind == k
    case Pinging(kind, _, _) => kind == k
    case Waiting(kind) => kind == k
    case Creating(kind) => kind == k
    case Created(kind, _) => kind == k
    case CreateCounted(kind, _) => kind == k
    case Reused(kind, _) => kind == k
    case ReuseCounted(kind, _) => kind == k
    case Holding(kind, _) => kind == k
    case _ => false
  }

  predicate InRelease(p: Phase) {
    p.Outside? || p.Discarding? || p.Leaving? || p.Breaking? || p.Broken? || p.Returning? || p.Panicked?
  }

  /**
   What a fetcher's stage says about its pool client: only while asking, visiting and
   handing back is it in the pool.
   */
  predicate Coupled(f: Fetcher, p: Phase) {
    match f.stage
    case Asking(j) => j < |f.chain| && InAcquire(p, f.chain[j])
    case Visiting(j) => j < |f.chain| && p.Holding? && p.kind == f.chain[j]
    case HandingBack(j, _) => j < |f.chain| && InRelease(p)
    case _ => p.Outside?
  }

  predicate AttemptsOf(f: Fetcher, n: nat) {
    && n <= |f.chain| && |f.attempts| == n
    && forall x | 0 <= x < n :: f.attempts[x].kind == f.chain[x]
  }

  predicate NoWinner(attempts: seq<Attempt>) {
    forall x | 0 <= x < |attempts| :: !attempts[x].verdict.Usable?
  }

  predicate LastIs(f: Fetcher, j: nat, v: Verdict) {
    && AttemptsOf(f, j + 1) && f.attempts[j].verdict == v
    && NoWinner(f.attempts[..j])
  }

  /** The attempts recorded so far. */
  predicate Recorded(f: Fetcher) {
    match f.stage
    case Ready => f.attempts == []
    case Head(j) => AttemptsOf(f, j) && NoWinner(f.attempts)
    case Asking(j) => AttemptsOf(f, j) && NoWinner(f.attempts)
    case Visiting(j) => AttemptsOf(f, j) && NoWinner(f.attempts)
    case HandingBack(j, v) => AttemptsOf(f, j) && NoWinner(f.attempts) && !v.Refused?
    case Settling(j, v) => LastIs(f, j, v) && !v.Refused?
    case BlockCounted(j) => LastIs(f, j, Blocked)
    case Winning(j) => LastIs(f, j, Usable)
    case Won(j) => LastIs(f, j, Usable)
    case Succeeded(j) => LastIs(f, j, Usable)
    case Failed => AttemptsOf(f, |f.chain|) && NoWinner(f.attempts)
  }

  function InFlight(f: Fetcher): nat {
    if f.stage.Ready? || f.stage.Won? || f.stage.Succeeded? || f.stage.Failed? then 0 else 1
  }

  function Successes(f: Fetcher): nat {
    if f.stage.Won? || f.stage.Succeeded? then 1 else 0
  }

  function Unkinded(f: Fetcher): nat {
    if f.stage.Won? then 1 else 0
  }

  function UnkindedBlock(f: Fetcher): nat {
    if f.stage.BlockCounted? then 1 else 0
  }

  function FellBack(f: Fetcher): nat {
    if (f.stage.Winning? || f.stage.Won? || f.stage.Succeeded?) && f.stage.j > 0 then 1 else 0
  }

  /** The fetch counters add up. */
  ghost predicate MetersOk(m: Meters, fs: seq<Fetcher>) {
    && m.total == m.success + m.allFail + SumOf(InFlight, fs)
    && m.success == SumOf(Successes, fs)
    && m.success == MapSum(m.byKind) + SumOf(Unkinded, fs)
    && m.blocked == MapSum(m.blocksByKind) + SumOf(UnkindedBlock, fs)
    && m.fallback == SumOf(FellBack, fs)
  }

  ghost predicate FetchInv(s: FetchState) {
    && Inv(s.pool)
    && |s.fetchers| <= |s.pool.clients|
    && (forall i | 0 <= i < |s.fetchers| :: Coupled(s.fetchers[i], s.pool.clients[i]))
    && (forall i | 0 <= i < |s.fetchers| :: Recorded(s.fetchers[i]))
    && MetersOk(s.meters, s.fetchers)
  }

  lemma FetchInitInv(s: FetchState)
    requires FetchInit(s)
    ensures FetchInv(s)
  {
    InitInv(s.pool);
    SumOfZero(InFlight, s.fetchers);
    SumOfZero(Successes, s.fetchers);
    SumOfZero(Unkinded, s.fetchers);
    SumOfZero(UnkindedBlock, s.fetchers);
    SumOfZero(FellBack, s.fetchers);
  }

  /** A move of client i leaves the other clients alone, and inside a call it stays inside that call. */
  lemma CallMove(s: State, i: nat, move: Move, k: Kind)
    requires i < |s.clients| && MoveEnabled(s, i, move) && !StartsCall(move)
    ensures var t := Apply(s, Client(i, move));
      && |t.clients| == |s.clients|
      && (forall j | 0 <= j < |s.clients| && j != i :: t.clients[j] == s.clients[j])
      && (InAcquire(s.clients[i], k) ==> InAcquire(t.clients[i], k))
      && (InRelease(s.clients[i]) ==> InRelease(t.clients[i]))
  {
  }

  /** An action of the pool changes at most the client that takes it. */
  lemma OthersKept(s: State, a: Action)
    ensures |Apply(s, a).clients| == |s.clients|
    ensures forall j | 0 <= j < |s.clients| && a != Client(j, if a.Client? then a.move else Undo) ::
      Apply(s, a).clients[j] == s.clients[j]
  {
  }

  lemma PoolStepInv(s: FetchState, a: Action)
    requires FetchInv(s) && PoolActionEnabled(s, a)
    ensures FetchInv(FetchApply(s, InPool(a)))
  {
    StepInv(s.pool, a);
    OthersKept(s.pool, a);
    var t := FetchApply(s, InPool(a));
    forall i | 0 <= i < |t.fetchers| ensures Coupled(t.fetchers[i], t.pool.clients[i]) {
      assert Coupled(s.fetchers[i], s.pool.clients[i]);
      if a.Client? && a.i == i {
        var j := s.fetchers[i].stage.j;
        CallMove(s.pool, i, a.move, s.fetchers[i].chain[j]);
      }
    }
  }

  /** The fetcher's move on its own record. */
  lemma NextRecorded(s: FetchState, i: nat, move: FetchMove)
    requires i < |s.fetchers| <= |s.pool.clients| && FetchEnabled(s, i, move)
    requires Recorded(s.fetchers[i]) && Coupled(s.fetchers[i], s.pool.clients[i])
    ensures Recorded(Next(s.fetchers[i], s.pool.clients[i], move))
  {
    var f := s.fetchers[i];
    var g := Next(f, s.pool.clients[i], move);
    if |g.attempts| > |f.attempts| {
      assert g.attempts[..|f.attempts|] == f.attempts;
    } else if move.NextPass? || move.CountBlockKind? {
      assert f.attempts == f.attempts[..f.stage.j] + [f.attempts[f.stage.j]];
    }
  }

  lemma NextCoupled(s: FetchState, i: nat, move: FetchMove)
    requires i < |s.fetchers| <= |s.pool.clients| && FetchEnabled(s, i, move)
    requires Coupled(s.fetchers[i], s.pool.clients[i])
    ensures var pool := PoolAfter(s.pool, i, s.fetchers[i], move);
      |pool.clients| == |s.pool.clients|
      && (forall j | 0 <= j < |pool.clients| && j != i :: pool.clients[j] == s.pool.clients[j])
      && Coupled(Next(s.fetchers[i], s.pool.clients[i], move), pool.clients[i])
  {
  }

  lemma PoolAfterInv(s: FetchState, i: nat, move: FetchMove)
    requires Inv(s.pool) && i < |s.fetchers| <= |s.pool.clients| && FetchEnabled(s, i, move)
    ensures Inv(PoolAfter(s.pool, i, s.fetchers[i], move))
  {
    var f := s.fetchers[i];
    match move
    case CallAcquire => StepInv(s.pool, Client(i, BeginAcquire(f.chain[f.stage.j])));
    case VisitEnds(v) => StepInv(s.pool, Client(i, BeginRelease(v.Errored? && v.connection)));
    case _ =>
  }

  lemma MetersMove(m: Meters, fs: seq<Fetcher>, i: nat, p: Phase, move: FetchMove, s: FetchState)
    requires s.fetchers == fs && i < |fs| <= |s.pool.clients| && p == s.pool.clients[i] && FetchEnabled(s, i, move)
    requires MetersOk(m, fs)
    ensures MetersOk(Metered(m, fs[i], move), fs[i := Next(fs[i], p, move)])
  {
    var f, g := fs[i], Next(fs[i], p, move);
    SumOfUpdate(InFlight, fs, i, g);
    SumOfUpdate(Successes, fs, i, g);
    SumOfUpdate(Unkinded, fs, i, g);
    SumOfUpdate(UnkindedBlock, fs, i, g);
    SumOfUpdate(FellBack, fs, i, g);
    if move.CountBlockKind? { MapSumBump(m.blocksByKind, f.chain[f.stage.j]); }
    if move.CountFetchKind? { MapSumBump(m.byKind, f.chain[f.stage.j]); }
  }

  lemma AllCoupled(s: FetchState, i: nat, move: FetchMove)
    requires i < |s.fetchers| <= |s.pool.clients| && FetchEnabled(s, i, move)
    requires forall j | 0 <= j < |s.fetchers| :: Coupled(s.fetchers[j], s.pool.clients[j])
    ensures var t := FetchApply(s, Fetch(i, move));
      |t.pool.clients| == |s.pool.clients|
      && forall j | 0 <= j < |t.fetchers| :: Coupled(t.fetchers[j], t.pool.clients[j])
  {
    NextCoupled(s, i, move);
    assert forall j | 0 <= j < |s.fetchers| && j != i :: Coupled(s.fetchers[j], s.pool.clients[j]);
  }

  lemma AllRecorded(s: FetchState, i: nat, move: FetchMove)
    requires i < |s.fetchers| <= |s.pool.clients| && FetchEnabled(s, i, move)
    requires Coupled(s.fetchers[i], s.pool.clients[i])
    requires forall j | 0 <= j < |s.fetchers| :: Recorded(s.fetchers[j])
    ensures forall j | 0 <= j < |FetchApply(s, Fetch(i, move)).fetchers| ::
      Recorded(FetchApply(s, Fetch(i, move)).fetchers[j])
  {
    NextRecorded(s, i, move);
  }

  lemma FetchMoveInv(s: FetchState, i: nat, move: FetchMove)
    requires FetchInv(s) && i < |s.fetchers| && FetchEnabled(s, i, move)
    ensures FetchInv(FetchApply(s, Fetch(i, move)))
  {
    PoolAfterInv(s, i, move);
    AllCoupled(s, i, move);
    AllRecorded(s, i, move);
    MetersMove(s.meters, s.fetchers, i, s.pool.clients[i], move, s);
  }

  lemma FetchStepInv(s: FetchState, a: FetchAction)
    requires FetchInv(s) && FetchActionEnabled(s, a)
    ensures FetchInv(FetchApply(s, a))
  {
    match a
    case InPool(b) => PoolStepInv(s, b);
    case Fetch(i, move) => FetchMoveInv(s, i, move);
  }
}
