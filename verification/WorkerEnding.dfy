/** When Run can still return: the calls of the pool that the worker waits for have to. */
module WorkerEnding {
  import opened Sums
  import opened PoolProtocol
  import opened PoolInvariant
  import opened PoolTheorems
  import opened FetchProtocol
  import opened WorkerProtocol
  import opened WorkerTheorems

  /** How many moves at most a client needs to end its call, if nobody else moves while it has the mutex. */
  function Distance(p: PoolProtocol.Phase): nat {
    match p
    case Admitted(_) => 6
    case Queued(_) => 5
    case Looping(_, _) => 4
    case Pinging(_, _, _) => 3
    case Creating(_) => 3
    case Leaving(_, _) => 3
    case Undoing => 2
    case Created(_, _) => 2
    case Reused(_, _) => 2
    case Breaking(_) => 2
    case Outside => 0
    case Holding(_, _) => 0
    case Panicked(_) => 0
    case _ => 1
  }

  /** The move towards the end of the call: a wait for an instance ends with its context. */
  function Onward(s: State, i: nat): Move
    requires InCall(s, i)
  {
    if s.clients[i].Waiting? then TimeOut else NextMove(s, i)
  }

  lemma OnwardDescends(s: State, i: nat)
    requires InCall(s, i) && MoveEnabled(s, i, Onward(s, i))
    ensures !StartsCall(Onward(s, i))
    ensures Distance(MoveEffect(s, i, Onward(s, i)).next) < Distance(s.clients[i])
    ensures PuttingBack(MoveEffect(s, i, Onward(s, i)).next) ==> PuttingBack(s.clients[i])
    ensures MoveEffect(s, i, Onward(s, i)).next.Panicked? ==> s.drained && PuttingBack(s.clients[i])
  {
  }

  lemma OnwardEnabled(s: State, i: nat)
    requires InCall(s, i)
    ensures s.lock.Free? || InSection(s.clients[i]) ==> MoveEnabled(s, i, Onward(s, i))
  {
    CallMoves(s, i);
  }

  /** Some task's release is past the closed check and finds the stacks emptied. */
  predicate Jammed(s: WorkState) {
    && s.fetch.pool.drained
    && exists i :: 0 <= i < |s.gs| <= |s.fetch.pool.clients| && PuttingBack(s.fetch.pool.clients[i])
  }

  /** Nothing has gone wrong that keeps Run from returning. */
  ghost predicate Running(s: WorkState) {
    WorkInv(s) && !s.fetch.pool.crashed && !Jammed(s)
  }

  /** The client that moves: i itself, or the one that has the mutex. */
  function Mover(s: State, i: nat): nat
    requires InCall(s, i)
  {
    if MoveEnabled(s, i, Onward(s, i)) || s.lock.Free? then i else s.lock.client
  }

  lemma MoverMoves(s: State, i: nat)
    requires InCall(s, i) && Locks(s)
    ensures var h := Mover(s, i);
      InCall(s, h) && MoveEnabled(s, h, Onward(s, h)) && (h != i ==> InSection(s.clients[h]))
  {
    OnwardEnabled(s, i);
    var h := Mover(s, i);
    if h != i { OnwardEnabled(s, h); }
  }

  /** A pool move towards the end of the call that fetch i is in. */
  lemma CallStep(s: WorkState, i: nat) returns (a: WorkAction)
    requires Running(s) && i < |s.gs| && InPoolCall(s.fetch.fetchers[i], s.fetch.pool.clients[i])
    ensures WorkEnabled(s, a) && PoolMove(a) && a.f.a.Client?
    ensures var h := a.f.a.i; InCall(s.fetch.pool, h) && a.f.a.move == Onward(s.fetch.pool, h)
    ensures MoveEnabled(s.fetch.pool, a.f.a.i, a.f.a.move)
    ensures PuttingBack(s.fetch.pool.clients[a.f.a.i]) ==> !s.fetch.pool.drained
  {
    var pool, fs := s.fetch.pool, s.fetch.fetchers;
    assert Coupled(fs[i], pool.clients[i]);
    MoverMoves(pool, i);
    var h := Mover(pool, i);
    OnwardDescends(pool, h);
    assert h < |fs| ==> Coupled(fs[h], pool.clients[h]);
    a := Below(InPool(Client(h, Onward(pool, h))));
  }

  lemma MoveDescends(s: State, h: nat)
    requires InCall(s, h) && MoveEnabled(s, h, Onward(s, h)) && !s.crashed
    requires PuttingBack(s.clients[h]) ==> !s.drained
    ensures var t := Apply(s, Client(h, Onward(s, h)));
      && SumOf(Distance, t.clients) < SumOf(Distance, s.clients)
      && NoneJoins(s, t)
  {
    OnwardDescends(s, h);
    SumOfUpdate(Distance, s.clients, h, MoveEffect(s, h, Onward(s, h)).next);
  }

  /** Nobody new is about to put a browser back. */
  predicate NoneJoins(s: State, t: State) {
    && |t.clients| == |s.clients| && t.drained == s.drained && !t.crashed
    && forall j | 0 <= j < |t.clients| :: PuttingBack(t.clients[j]) ==> PuttingBack(s.clients[j]) || !s.drained
  }

  lemma StillRunning(s: WorkState, t: WorkState)
    requires Running(s) && WorkInv(t) && |t.gs| == |s.gs| && NoneJoins(s.fetch.pool, t.fetch.pool)
    ensures Running(t)
  {
  }

  /** A call that begins in an emptied pool does not put a browser back: the closed flag is set. */
  lemma BeginJoins(s: State, i: nat, move: Move)
    requires Closing(s) && !s.crashed && StartsCall(move)
    ensures NoneJoins(s, Apply(s, Client(i, move)))
  {
  }

  lemma FetchJoins(s: FetchState, i: nat, move: FetchMove)
    requires Inv(s.pool) && !s.pool.crashed && i < |s.fetchers|
    ensures NoneJoins(s.pool, PoolAfter(s.pool, i, s.fetchers[i], move))
  {
    match move
    case CallAcquire =>
      var f := s.fetchers[i];
      if f.stage.Head? && f.stage.j < |f.chain| { BeginJoins(s.pool, i, BeginAcquire(f.chain[f.stage.j])); }
    case VisitEnds(v) => BeginJoins(s.pool, i, BeginRelease(v.Errored? && v.connection));
    case _ =>
  }

  lemma OwnStepRuns(s: WorkState, a: WorkAction)
    requires Running(s) && WorkEnabled(s, a) && !PoolMove(a)
    ensures NoneJoins(s.fetch.pool, WorkApply(s, a).fetch.pool)
  {
    if a.Below? { FetchJoins(s.fetch, a.f.i, a.f.move); }
  }

  /** The step is one nearer to the return. */
  ghost predicate Nearer(s: WorkState, a: WorkAction) {
    && WorkEnabled(s, a) && Running(WorkApply(s, a))
    && var t := WorkApply(s, a);
       || Left(t) < Left(s)
       || (Left(t) == Left(s) && SumOf(Distance, t.fetch.pool.clients) < SumOf(Distance, s.fetch.pool.clients))
  }

  lemma StepKeepsCount(s: WorkState, a: WorkAction)
    requires WorkInv(s) && WorkEnabled(s, a)
    ensures WorkInv(WorkApply(s, a)) && |WorkApply(s, a).gs| == |s.gs|
  {
    WorkStepInv(s, a);
    StepKeepsTasks(s, a);
  }

  lemma OwnStepNearer(s: WorkState, a: WorkAction)
    requires Running(s) && WorkEnabled(s, a) && !PoolMove(a)
    ensures Nearer(s, a)
  {
    OwnStepRuns(s, a);
    StepDecreases(s, a);
    StepKeepsCount(s, a);
    StillRunning(s, WorkApply(s, a));
  }

  lemma CallStepNearer(s: WorkState, i: nat) returns (a: WorkAction)
    requires Running(s) && i < |s.gs| && InPoolCall(s.fetch.fetchers[i], s.fetch.pool.clients[i])
    ensures Nearer(s, a)
  {
    a := CallStep(s, i);
    MoveDescends(s.fetch.pool, a.f.a.i);
    StepDecreases(s, a);
    StepKeepsCount(s, a);
    StillRunning(s, WorkApply(s, a));
  }

  lemma EndStep(s: WorkState) returns (a: WorkAction)
    requires Running(s) && !s.main.Returned?
    ensures Nearer(s, a)
  {
    a := SomeMove(s);
    if PoolMove(a) {
      var i :| 0 <= i < |s.gs| && InPoolCall(s.fetch.fetchers[i], s.fetch.pool.clients[i]);
      a := CallStepNearer(s, i);
    } else {
      OwnStepNearer(s, a);
    }
  }

  lemma CanWorkAfter(s: WorkState, a: WorkAction, rest: seq<WorkAction>)
    requires WorkEnabled(s, a) && CanWork(WorkApply(s, a), rest)
    ensures CanWork(s, [a] + rest) && WorkRun(s, [a] + rest) == WorkRun(WorkApply(s, a), rest)
  {
    assert ([a] + rest)[1..] == rest;
  }

  lemma {:induction false} RunsToEnd(s: WorkState) returns (acts: seq<WorkAction>)
    requires Running(s)
    ensures CanWork(s, acts) && WorkRun(s, acts).main.Returned? && !WorkRun(s, acts).fetch.pool.crashed
    decreases Left(s), SumOf(Distance, s.fetch.pool.clients)
  {
    acts := [];
    if !s.main.Returned? {
      var a := EndStep(s);
      var rest := RunsToEnd(WorkApply(s, a));
      CanWorkAfter(s, a, rest);
      acts := [a] + rest;
    }
  }

  // ---- and when not ----

  /** Task i cannot get out of its release. */
  predicate Caught(s: WorkState, i: nat) {
    && i < |s.gs| == |s.fetch.fetchers| <= |s.fetch.pool.clients| && s.fetch.pool.drained
    && (PuttingBack(s.fetch.pool.clients[i]) || s.fetch.pool.clients[i].Panicked?)
  }

  lemma CaughtInPool(s: State, a: Action, i: nat)
    requires Enabled(s, a) && i < |s.clients| && s.drained
    requires PuttingBack(s.clients[i]) || s.clients[i].Panicked?
    ensures var t := Apply(s, a);
      |t.clients| == |s.clients| && t.drained && (PuttingBack(t.clients[i]) || t.clients[i].Panicked?)
  {
  }

  lemma CaughtInFetch(s: FetchState, j: nat, move: FetchMove, i: nat)
    requires j < |s.fetchers| <= |s.pool.clients| && FetchEnabled(s, j, move) && i < |s.pool.clients| && s.pool.drained
    requires PuttingBack(s.pool.clients[i]) || s.pool.clients[i].Panicked?
    ensures var t := FetchApply(s, Fetch(j, move)).pool;
      |t.clients| == |s.pool.clients| && t.drained && t.clients[i] == s.pool.clients[i]
  {
  }

  lemma CaughtStep(s: WorkState, a: WorkAction, i: nat)
    requires Caught(s, i) && WorkEnabled(s, a)
    ensures Caught(WorkApply(s, a), i)
  {
    if a.Below? {
      if a.f.InPool? { CaughtInPool(s.fetch.pool, a.f.a, i); } else { CaughtInFetch(s.fetch, a.f.i, a.f.move, i); }
    }
  }

  /** Its goroutine is running, so the wait group is not empty. */
  lemma CaughtNotReturned(s: WorkState, i: nat)
    requires WorkInv(s) && Caught(s, i)
    ensures !s.main.Returned?
  {
    assert Coupled(s.fetch.fetchers[i], s.fetch.pool.clients[i]);
    assert GoroutineOk(s.gs[i], s.fetch.fetchers[i], s.cancelled, s.callback);
    if s.wg == 0 { NoneLeft(s, i); }
  }

  lemma {:induction false} CaughtForever(s: WorkState, acts: seq<WorkAction>, i: nat)
    requires WorkInv(s) && Caught(s, i) && CanWork(s, acts)
    ensures !WorkRun(s, acts).main.Returned?
    decreases |acts|
  {
    if acts == [] {
      CaughtNotReturned(s, i);
    } else {
      CaughtStep(s, acts[0], i);
      WorkStepInv(s, acts[0]);
      CaughtForever(WorkApply(s, acts[0]), acts[1..], i);
    }
  }

  /** Some continuation brings Run to its return without a panic. */
  ghost predicate CanReturn(s: WorkState) {
    exists t :: Reaches(s, t) && t.main.Returned? && !t.fetch.pool.crashed
  }

  /**
   From any state that a run reaches without a panic, Run can still return exactly if
   no task is about to put a browser back into stacks that Close has emptied.
   */
  lemma CanReturnIff(s: WorkState, t: WorkState)
    requires WorkInit(s) && Reaches(s, t) && !t.fetch.pool.crashed
    ensures CanReturn(t) <==> !Jammed(t)
  {
    WorkReached(s, t);
    if Jammed(t) {
      var i :| 0 <= i < |t.gs| <= |t.fetch.pool.clients| && PuttingBack(t.fetch.pool.clients[i]);
      forall u | Reaches(t, u) ensures !u.main.Returned? {
        var acts :| CanWork(t, acts) && WorkRun(t, acts) == u;
        CaughtForever(t, acts, i);
      }
    } else {
      var acts := RunsToEnd(t);
      assert Reaches(t, WorkRun(t, acts));
    }
  }
}
