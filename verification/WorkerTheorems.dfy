/** What holds of every run of Worker.Run. */
module WorkerTheorems {
  import opened Sums
  import opened PoolProtocol
  import opened PoolTheorems
  import opened FetchProtocol
  import opened FetchTheorems
  import opened WorkerProtocol

  ghost predicate CanWork(s: WorkState, acts: seq<WorkAction>)
    decreases |acts|
  {
    acts == [] || (WorkEnabled(s, acts[0]) && CanWork(WorkApply(s, acts[0]), acts[1..]))
  }

  ghost function WorkRun(s: WorkState, acts: seq<WorkAction>): WorkState
    requires CanWork(s, acts)
    decreases |acts|
  {
    if acts == [] then s else WorkRun(WorkApply(s, acts[0]), acts[1..])
  }

  /** t is reached from s. */
  ghost predicate Reaches(s: WorkState, t: WorkState) {
    exists acts :: CanWork(s, acts) && WorkRun(s, acts) == t
  }

  /** The tasks stay the same tasks. */
  predicate SameTasks(s: WorkState, t: WorkState) {
    && |s.gs| == |t.gs|
    && s.concurrency == t.concurrency && s.callback == t.callback
    && forall i | 0 <= i < |s.gs| :: s.gs[i].url == t.gs[i].url
  }

  lemma StepKeepsTasks(s: WorkState, a: WorkAction)
    requires WorkEnabled(s, a)
    ensures SameTasks(s, WorkApply(s, a))
  {
  }

  lemma {:induction false} RunKeeps(s: WorkState, acts: seq<WorkAction>)
    requires WorkInv(s) && FetchReachable(s.fetch) && CanWork(s, acts)
    ensures var t := WorkRun(s, acts); WorkInv(t) && SameTasks(s, t) && FetchReachable(t.fetch)
    decreases |acts|
  {
    if acts != [] {
      WorkStepInv(s, acts[0]);
      StepKeepsTasks(s, acts[0]);
      if acts[0].Below? { FetchReachableStep(s.fetch, acts[0].f); }
      RunKeeps(WorkApply(s, acts[0]), acts[1..]);
    }
  }

  /**
   The fetches under a worker are a run of FetchProtocol, so what is proved of fetches
   and the pool holds here too.
   */
  lemma WorkReached(s: WorkState, t: WorkState)
    requires WorkInit(s) && Reaches(s, t)
    ensures WorkInv(t) && SameTasks(s, t) && FetchReachable(t.fetch)
  {
    var acts :| CanWork(s, acts) && WorkRun(s, acts) == t;
    WorkInitInv(s);
    assert CanFetch(s.fetch, []) && FetchRun(s.fetch, []) == s.fetch;
    RunKeeps(s, acts);
  }

  // ---- the results ----

  /** When Run returns, every slot was written exactly once and carries the URL of its own task. */
  lemma EverySlotOnce(s: WorkState, t: WorkState, i: nat)
    requires WorkInit(s) && Reaches(s, t) && t.main.Returned? && i < |s.gs|
    ensures |t.gs| == |s.gs| && t.gs[i].writes == 1
    ensures !t.gs[i].slot.Blank? && t.gs[i].slot.url == s.gs[i].url
  {
    WorkReached(s, t);
    NoneLeft(t, i);
    var k :| Prefix(t.gs, t.main, t.cancelled, k);
    assert GoroutineOk(t.gs[i], t.fetch.fetchers[i], t.cancelled, t.callback);
    assert i >= k ==> Skipped(t.gs[i]);
  }

  /**
   When Run returns, the spawned tasks are a prefix of the list, all of it unless the
   context was cancelled, and every later task has the context error. A spawned task
   has the outcome of its own fetch exactly if it entered the semaphore.
   */
  lemma SpawnedPrefix(s: WorkState, t: WorkState) returns (k: nat)
    requires WorkInit(s) && Reaches(s, t) && t.main.Returned?
    ensures k <= |t.gs| == |t.fetch.fetchers| && (k < |t.gs| ==> t.cancelled)
    ensures forall i | 0 <= i < k ::
      var g := t.gs[i];
      && g.phase.Over?
      && (g.phase.entered ==> g.slot == Fetched(g.url, t.fetch.fetchers[i].stage.Succeeded?))
      && (!g.phase.entered ==> t.cancelled && g.slot == Cancelled(g.url))
    ensures forall i | k <= i < |t.gs| :: t.gs[i].phase.Unspawned? && t.gs[i].slot == Cancelled(t.gs[i].url)
  {
    WorkReached(s, t);
    k :| Prefix(t.gs, t.main, t.cancelled, k);
    forall i | 0 <= i < k
      ensures t.gs[i].phase.Over?
      ensures Concluded(t.gs[i], t.fetch.fetchers[i], t.cancelled, t.callback, t.gs[i].phase.entered)
    {
      NoneLeft(t, i);
      assert GoroutineOk(t.gs[i], t.fetch.fetchers[i], t.cancelled, t.callback);
    }
    assert forall i | k <= i < |t.gs| :: Skipped(t.gs[i]);
  }

  /** OnResult, if it is set, has fired once for each task that entered and never for another. */
  lemma OneCallback(s: WorkState, t: WorkState, i: nat)
    requires WorkInit(s) && Reaches(s, t) && t.main.Returned? && i < |s.gs|
    ensures |t.gs| == |s.gs|
    ensures t.gs[i].callbacks == if s.callback && t.gs[i].phase == Over(true) then 1 else 0
  {
    WorkReached(s, t);
    NoneLeft(t, i);
    assert GoroutineOk(t.gs[i], t.fetch.fetchers[i], t.cancelled, t.callback);
  }

  // ---- the semaphore ----

  function Has(p: PoolProtocol.Phase): nat {
    if HasBrowser(p) then 1 else 0
  }

  /** A worker's client has a browser only while its goroutine is past the semaphore. */
  lemma HasWhileEntered(s: WorkState, i: nat)
    requires WorkInv(s) && i < |s.gs|
    ensures i < |s.fetch.pool.clients| && Has(s.fetch.pool.clients[i]) <= OnSem(s.gs[i])
  {
    assert GoroutineOk(s.gs[i], s.fetch.fetchers[i], s.cancelled, s.callback);
    assert Coupled(s.fetch.fetchers[i], s.fetch.pool.clients[i]);
  }

  /** At every step the tasks past the semaphore number at most Concurrency, and have at most one browser each. */
  lemma SemBound(s: WorkState, t: WorkState)
    requires WorkInit(s) && Reaches(s, t)
    ensures |t.gs| <= |t.fetch.pool.clients|
    ensures SumOf(Has, t.fetch.pool.clients[..|t.gs|]) <= SumOf(OnSem, t.gs) == t.sem <= s.concurrency
  {
    WorkReached(s, t);
    var ps := t.fetch.pool.clients[..|t.gs|];
    forall i | 0 <= i < |ps| ensures Has(ps[i]) <= OnSem(t.gs[i]) { HasWhileEntered(t, i); }
    SumOfBelow(Has, ps, OnSem, t.gs);
  }

  /** When Run returns, the semaphore is empty and no task has a browser. */
  lemma NothingHeldAtEnd(s: WorkState, t: WorkState)
    requires WorkInit(s) && Reaches(s, t) && t.main.Returned?
    ensures t.sem == 0 && |t.gs| <= |t.fetch.pool.clients|
    ensures forall i | 0 <= i < |t.gs| :: !HasBrowser(t.fetch.pool.clients[i])
  {
    WorkReached(s, t);
    forall i | 0 <= i < |t.gs| ensures OnSem(t.gs[i]) == 0 && Has(t.fetch.pool.clients[i]) == 0 {
      NoneLeft(t, i);
      HasWhileEntered(t, i);
    }
    SumOfZero(OnSem, t.gs);
  }

  // ---- termination ----

  function LoopLeft(loop: Loop, n: nat): nat {
    match loop
    case Scanning(i) => if i <= n then 3 * (n - i) + 3 else 0
    case Limiting(i) => if i <= n then 3 * (n - i) + 2 else 0
    case Spawning(i) => if i <= n then 3 * (n - i) + 1 else 0
    case Filling(j) => if j <= n then n - j + 2 else 0
    case Joining => 1
    case Returned => 0
  }

  function TaskLeft(g: Goroutine): nat {
    match g.phase
    case Unspawned => 6
    case AtGate => 5
    case Running => 4
    case Written => 3
    case Reported => 2
    case Leaving(_) => 1
    case Over(_) => 0
  }

  function Rank(st: Stage): nat {
    match st
    case Head(_) => 7
    case Asking(_) => 6
    case Visiting(_) => 5
    case HandingBack(_, _) => 4
    case Settling(_, _) => 3
    case BlockCounted(_) => 2
    case Winning(_) => 2
    case Won(_) => 1
    case _ => 0
  }

  function FetchLeft(f: Fetcher): nat {
    if f.stage.Ready? then 7 * |f.chain| + 8
    else if f.stage.Succeeded? || f.stage.Failed? || f.stage.j > |f.chain| then 0
    else 7 * (|f.chain| - f.stage.j) + Rank(f.stage)
  }

  ghost function Left(s: WorkState): nat {
    LoopLeft(s.main, |s.gs|) + SumOf(TaskLeft, s.gs) + SumOf(FetchLeft, s.fetch.fetchers)
    + (if s.cancelled then 0 else 1)
  }

  /** A move of the pool: its own clients and ticks, or a fetch inside Acquire or Release. */
  predicate PoolMove(a: WorkAction) {
    a.Below? && a.f.InPool?
  }

  lemma LoopDecreases(s: WorkState, m: LoopMove, k: nat)
    requires LoopEnabled(s, m) && Prefix(s.gs, s.main, s.cancelled, k)
    ensures Left(LoopNext(s, m)) < Left(s)
  {
    var i := Frontier(s.main, |s.gs|);
    assert LoopLeft(LoopOn(s, m), |s.gs|) < LoopLeft(s.main, |s.gs|);
    if i < |s.gs| {
      assert TaskLeft(Decided(s.gs[i], m)) <= TaskLeft(s.gs[i]);
      SumOfUpdate(TaskLeft, s.gs, i, Decided(s.gs[i], m));
    }
  }

  lemma TaskDecreases(s: WorkState, i: nat, m: TaskMove)
    requires i < |s.gs| == |s.fetch.fetchers| && TaskEnabled(s, i, m)
    ensures Left(TaskNext(s, i, m)) < Left(s)
  {
    SumOfUpdate(TaskLeft, s.gs, i, TaskOn(s.gs[i], s.fetch.fetchers[i], s.callback, m));
  }

  lemma StageDecreases(s: FetchState, i: nat, move: FetchMove)
    requires i < |s.fetchers| <= |s.pool.clients| && FetchEnabled(s, i, move)
    requires Recorded(s.fetchers[i]) && Coupled(s.fetchers[i], s.pool.clients[i])
    ensures FetchLeft(Next(s.fetchers[i], s.pool.clients[i], move)) < FetchLeft(s.fetchers[i])
  {
  }

  lemma FetchMoveDecreases(s: FetchState, i: nat, move: FetchMove)
    requires i < |s.fetchers| <= |s.pool.clients| && FetchEnabled(s, i, move)
    requires Recorded(s.fetchers[i]) && Coupled(s.fetchers[i], s.pool.clients[i])
    ensures SumOf(FetchLeft, FetchApply(s, Fetch(i, move)).fetchers) < SumOf(FetchLeft, s.fetchers)
  {
    StageDecreases(s, i, move);
    SumOfUpdate(FetchLeft, s.fetchers, i, Next(s.fetchers[i], s.pool.clients[i], move));
  }

  /** Every step of the worker and its fetches, other than those inside the pool, brings the end nearer. */
  lemma StepDecreases(s: WorkState, a: WorkAction)
    requires WorkInv(s) && WorkEnabled(s, a)
    ensures if PoolMove(a) then Left(WorkApply(s, a)) == Left(s) else Left(WorkApply(s, a)) < Left(s)
  {
    match a
    case InLoop(m) =>
      var k :| Prefix(s.gs, s.main, s.cancelled, k);
      LoopDecreases(s, m, k);
    case Task(i, m) => TaskDecreases(s, i, m);
    case Below(f) => if f.Fetch? { FetchMoveDecreases(s.fetch, f.i, f.move); }
    case Cancel =>
  }

  /** How many actions of a run are not moves of the pool. */
  function OwnMoves(acts: seq<WorkAction>): nat {
    if acts == [] then 0 else (if PoolMove(acts[0]) then 0 else 1) + OwnMoves(acts[1..])
  }

  /** No schedule takes more than Left(s) steps of the worker and its fetches. */
  lemma {:induction false} RunIsBounded(s: WorkState, acts: seq<WorkAction>)
    requires WorkInv(s) && CanWork(s, acts)
    ensures OwnMoves(acts) + Left(WorkRun(s, acts)) <= Left(s)
    decreases |acts|
  {
    if acts != [] {
      StepDecreases(s, acts[0]);
      WorkStepInv(s, acts[0]);
      RunIsBounded(WorkApply(s, acts[0]), acts[1..]);
    }
  }

  function ChainCost(f: Fetcher): nat {
    7 * |f.chain| + 8
  }

  /** In particular, Run ends after a number of such steps that is linear in the tasks and their chains. */
  lemma RunEnds(s: WorkState, acts: seq<WorkAction>)
    requires WorkInit(s) && CanWork(s, acts)
    ensures OwnMoves(acts) <= 9 * |s.gs| + 4 + SumOf(ChainCost, s.fetch.fetchers)
  {
    WorkInitInv(s);
    RunIsBounded(s, acts);
    SumOfBelow(FetchLeft, s.fetch.fetchers, ChainCost, s.fetch.fetchers);
    AllUnspawned(s.gs);
  }

  lemma {:induction false} AllUnspawned(gs: seq<Goroutine>)
    requires forall i | 0 <= i < |gs| :: gs[i].phase.Unspawned?
    ensures SumOf(TaskLeft, gs) == 6 * |gs|
  {
    if gs != [] { AllUnspawned(gs[..|gs| - 1]); }
  }

  // ---- no deadlock ----

  /** Client i is inside Acquire or Release. */
  predicate InCall(s: State, i: nat) {
    i < |s.clients| && !s.clients[i].Outside? && !s.clients[i].Holding? && !s.clients[i].Panicked?
  }

  /** A move for it. */
  function NextMove(s: State, i: nat): Move
    requires InCall(s, i)
  {
    match s.clients[i]
    case Admitted(_) => CountAcquire
    case Queued(_) => TakeLock
    case Waiting(_) => TakeLock
    case Creating(_) => CreateOk
    case Undoing => PoolProtocol.Undo
    case Failing => CountFailure
    case Created(_, _) => PoolProtocol.CountSuccess
    case Reused(_, _) => PoolProtocol.CountSuccess
    case CreateCounted(_, _) => CountKind
    case ReuseCounted(_, _) => CountKind
    case Discarding(_) => CloseDiscarded
    case Leaving(_, _) => CountRelease
    case Breaking(_) => CloseBroken
    case Broken => DropBroken
    case Returning(_) => PutBack
    case Looping(_, _) => Exit(s, i)
    case Pinging(_, _, _) => Exit(s, i)
  }

  /** It can be taken, or waits for the mutex; a client that waits for an instance polls. */
  lemma CallMoves(s: State, i: nat)
    requires InCall(s, i)
    ensures !StartsCall(NextMove(s, i)) && !NextMove(s, i).TimeOut?
    ensures s.lock.Free? || InSection(s.clients[i]) ==> MoveEnabled(s, i, NextMove(s, i))
  {
  }

  /** The fetch is inside a call of the pool that has not returned. */
  predicate InPoolCall(f: Fetcher, p: PoolProtocol.Phase) {
    || (f.stage.Asking? && !p.Outside? && !p.Holding?)
    || (f.stage.HandingBack? && !p.Outside?)
  }

  /** A move that only a context that ends provides. */
  predicate NeedsContext(a: WorkAction) {
    a.Cancel? || (PoolMove(a) && !(a.f.a.Client? && !a.f.a.move.TimeOut?))
  }

  /** A fetch that is in the pool: some client of the pool can move. */
  lemma PoolMoves(s: FetchState, i: nat) returns (a: Action)
    requires FetchInv(s) && !s.pool.crashed && i < |s.fetchers|
    requires var p := s.pool.clients[i]; !p.Outside? && !p.Holding?
    ensures a.Client? && !a.move.TimeOut? && PoolActionEnabled(s, a)
  {
    assert Coupled(s.fetchers[i], s.pool.clients[i]);
    CallMoves(s.pool, i);
    var move := NextMove(s.pool, i);
    a := Client(i, move);
    if !MoveEnabled(s.pool, i, move) {
      var h := s.pool.lock.client;
      assert InSection(s.pool.clients[h]);
      assert h < |s.fetchers| ==> Coupled(s.fetchers[h], s.pool.clients[h]);
      a := Client(h, Exit(s.pool, h));
    }
  }

  /** A fetch that has not returned can move, or, if it is inside a call of the pool, the pool can. */
  lemma FetchMoves(s: FetchState, i: nat) returns (a: FetchAction)
    requires FetchInv(s) && !s.pool.crashed && i < |s.fetchers| && !FetchOver(s.fetchers[i])
    ensures FetchActionEnabled(s, a) && (a.InPool? ==> a.a.Client? && !a.a.move.TimeOut?) && (a.Fetch? ==> a.i == i)
    ensures a.InPool? ==> InPoolCall(s.fetchers[i], s.pool.clients[i])
  {
    var f, p := s.fetchers[i], s.pool.clients[i];
    assert Recorded(f) && Coupled(f, p);
    match f.stage
    case Ready => a := Fetch(i, Start);
    case Head(j) => a := Fetch(i, if j < |f.chain| then CallAcquire else GiveUpAll);
    case Asking(_) =>
      if p.Outside? || p.Holding? { a := Fetch(i, AcquireReturns); }
      else { var b := PoolMoves(s, i); a := InPool(b); }
    case Visiting(_) => a := Fetch(i, VisitEnds(Blocked));
    case HandingBack(_, _) =>
      if p.Outside? { a := Fetch(i, ReleaseReturns); }
      else { var b := PoolMoves(s, i); a := InPool(b); }
    case Settling(_, v) =>
      a := Fetch(i, if v.Errored? then NextPass else if v.Blocked? then CountBlock else CountFallback);
    case BlockCounted(_) => a := Fetch(i, CountBlockKind);
    case Winning(_) => a := Fetch(i, FetchMove.CountSuccess);
    case Won(_) => a := Fetch(i, CountFetchKind);
  }

  /** Some fetch of the worker is inside a call of the pool. */
  ghost predicate Calling(s: WorkState)
    requires |s.gs| == |s.fetch.fetchers| <= |s.fetch.pool.clients|
  {
    exists i :: 0 <= i < |s.gs| && InPoolCall(s.fetch.fetchers[i], s.fetch.pool.clients[i])
  }

  /** A goroutine past the semaphore can move. */
  lemma EnteredMoves(s: WorkState, i: nat) returns (a: WorkAction)
    requires WorkInv(s) && !s.fetch.pool.crashed && i < |s.gs| && OnSem(s.gs[i]) > 0
    ensures WorkEnabled(s, a) && !NeedsContext(a) && (PoolMove(a) ==> Calling(s))
  {
    match s.gs[i].phase
    case Written => a := Task(i, Report);
    case Reported =>
      SumOfAt(OnSem, s.gs, i);
      a := Task(i, TaskMove.Free);
    case Running =>
      if FetchOver(s.fetch.fetchers[i]) { a := Task(i, Write); }
      else { var f := FetchMoves(s.fetch, i); a := Below(f); }
  }

  /**
   No deadlock: until Run returns, and unless the pool has panicked, some step is
   enabled that does not take the end of a context. If no fetch is inside a call of
   the pool, that step is one of the worker and its fetches, of which RunEnds allows
   only so many.
   */
  lemma NoDeadlock(s: WorkState, t: WorkState) returns (a: WorkAction)
    requires WorkInit(s) && Reaches(s, t) && !t.main.Returned? && !t.fetch.pool.crashed
    ensures |t.gs| == |t.fetch.fetchers| <= |t.fetch.pool.clients|
    ensures WorkEnabled(t, a) && !NeedsContext(a)
    ensures PoolMove(a) ==> Calling(t)
    ensures !PoolMove(a) ==> Left(WorkApply(t, a)) < Left(t)
  {
    WorkReached(s, t);
    a := SomeMove(t);
    StepDecreases(t, a);
  }

  lemma SomeMove(t: WorkState) returns (a: WorkAction)
    requires WorkInv(t) && !t.main.Returned? && !t.fetch.pool.crashed
    ensures WorkEnabled(t, a) && !NeedsContext(a) && (PoolMove(a) ==> Calling(t))
  {
    var k :| Prefix(t.gs, t.main, t.cancelled, k);
    match t.main {
      case Scanning(i) =>
        a := InLoop(if i == |t.gs| then EndLoop else if t.cancelled then SeeCancelled else PassCheck);
      case Limiting(_) => a := InLoop(LoopMove.Tick);
      case Spawning(_) => a := InLoop(Spawn);
      case Filling(j) => a := InLoop(if j < |t.gs| then Fill else EndLoop);
      case Joining => a := JoiningMoves(t);
    }
  }

  lemma JoiningMoves(t: WorkState) returns (a: WorkAction)
    requires WorkInv(t) && t.main.Joining? && !t.fetch.pool.crashed
    ensures WorkEnabled(t, a) && !NeedsContext(a) && (PoolMove(a) ==> Calling(t))
  {
    if t.wg == 0 {
      a := InLoop(Join);
    } else {
      var i := SumOfPositive(OnWg, t.gs);
      if t.gs[i].phase.Leaving? {
        a := Task(i, TaskMove.Done);
      } else if t.gs[i].phase.AtGate? && t.sem < t.concurrency {
        a := Task(i, Enter);
      } else if t.gs[i].phase.AtGate? {
        var e := SumOfPositive(OnSem, t.gs);
        a := EnteredMoves(t, e);
      } else {
        a := EnteredMoves(t, i);
      }
    }
  }
}
