/**
Which tasks Worker.Run starts: none that its loop comes to after the context has ended,
and none without its tick.
*/
module WorkerStarts {
  import opened Sums
  import opened FetchProtocol
  import opened FetchTheorems
  import opened WorkerProtocol
  import opened WorkerTheorems

  /** The loop has let task i past its context check and has not spawned it. */
  predicate Passed(loop: Loop, i: int) {
    (loop.Limiting? || loop.Spawning?) && loop.i == i
  }

  predicate Started(s: WorkState, i: int) {
    0 <= i < |s.gs| && !s.gs[i].phase.Unspawned?
  }

  lemma LateStep(s: WorkState, a: WorkAction)
    requires s.cancelled && WorkEnabled(s, a)
    ensures var t := WorkApply(s, a);
      && t.cancelled && |t.gs| == |s.gs|
      && forall i :: (Started(t, i) ==> Started(s, i) || Passed(s.main, i))
                     && (Passed(t.main, i) ==> Passed(s.main, i))
  {
    match a
    case InLoop(m) =>
    case Task(_, _) =>
    case Below(_) =>
    case Cancel =>
  }

  /** Once the context has ended, at most the task that the loop had let past its check is still spawned. */
  lemma {:induction false} LateSpawn(s: WorkState, acts: seq<WorkAction>, i: int)
    requires s.cancelled && CanWork(s, acts) && Started(WorkRun(s, acts), i)
    ensures Started(s, i) || Passed(s.main, i)
    decreases |acts|
  {
    if acts != [] {
      LateStep(s, acts[0]);
      LateSpawn(WorkApply(s, acts[0]), acts[1..], i);
    }
  }

  /** In particular none if the loop is at its check, or filling. */
  lemma NoneSpawnedLate(s: WorkState, acts: seq<WorkAction>)
    requires s.cancelled && CanWork(s, acts) && !s.main.Limiting? && !s.main.Spawning?
    ensures forall i :: Started(WorkRun(s, acts), i) ==> Started(s, i)
  {
    forall i | Started(WorkRun(s, acts), i) ensures Started(s, i) { LateSpawn(s, acts, i); }
  }

  /** Without a started task, every slot that is written has the context error. */
  lemma NoneStarted(t: WorkState, i: nat)
    requires WorkInv(t) && i < |t.gs| && forall k :: !Started(t, k)
    ensures t.fetch.fetchers[i].stage.Ready?
    ensures t.main.Returned? ==> Skipped(t.gs[i])
  {
    assert !Started(t, i);
    assert GoroutineOk(t.gs[i], t.fetch.fetchers[i], t.cancelled, t.callback);
    var k :| Prefix(t.gs, t.main, t.cancelled, k);
    assert k > 0 ==> Started(t, 0);
  }

  /**
   A Run whose context has ended before it starts no goroutine and no fetch, and every
   slot gets the context error.
   */
  lemma CancelledBefore(s: WorkState, t: WorkState, i: nat)
    requires WorkInit(s) && s.cancelled && Reaches(s, t) && i < |s.gs|
    ensures |t.gs| == |s.gs| == |t.fetch.fetchers|
    ensures t.gs[i].phase.Unspawned? && t.fetch.fetchers[i].stage.Ready?
    ensures t.main.Returned? ==> t.gs[i].slot == Cancelled(s.gs[i].url)
  {
    var acts :| CanWork(s, acts) && WorkRun(s, acts) == t;
    WorkReached(s, t);
    NoneSpawnedLate(s, acts);
    forall k ensures !Started(t, k) { assert !Started(s, k); }
    NoneStarted(t, i);
    assert !Started(t, i);
  }

  // ---- the rate limit ----

  /** The ticks of the rate limiter in a run. */
  function Ticks(acts: seq<WorkAction>): nat {
    if acts == [] then 0 else (if acts[0] == InLoop(LoopMove.Tick) then 1 else 0) + Ticks(acts[1..])
  }

  function Spawned(g: Goroutine): nat {
    if g.phase.Unspawned? then 0 else 1
  }

  /** The tasks spawned, and the one about to be. */
  ghost function Granted(s: WorkState): nat {
    SumOf(Spawned, s.gs) + (if s.main.Spawning? then 1 else 0)
  }

  lemma LoopGrants(s: WorkState, m: LoopMove, k: nat)
    requires LoopEnabled(s, m) && Prefix(s.gs, s.main, s.cancelled, k)
    ensures s.limited ==> Granted(LoopNext(s, m)) == Granted(s) + (if m.Tick? then 1 else 0)
    ensures !s.limited && !s.main.Limiting? ==> !LoopNext(s, m).main.Limiting?
  {
    var i := Frontier(s.main, |s.gs|);
    if i < |s.gs| { SumOfUpdate(Spawned, s.gs, i, Decided(s.gs[i], m)); }
  }

  lemma TaskGrants(s: WorkState, i: nat, m: TaskMove)
    requires i < |s.gs| == |s.fetch.fetchers| && TaskEnabled(s, i, m)
    ensures Granted(TaskNext(s, i, m)) == Granted(s)
  {
    SumOfUpdate(Spawned, s.gs, i, TaskOn(s.gs[i], s.fetch.fetchers[i], s.callback, m));
  }

  lemma StepGrants(s: WorkState, a: WorkAction)
    requires WorkInv(s) && WorkEnabled(s, a)
    ensures var t := WorkApply(s, a);
      && t.limited == s.limited
      && (s.limited ==> Granted(t) == Granted(s) + (if a == InLoop(LoopMove.Tick) then 1 else 0))
      && (!s.limited && !s.main.Limiting? ==> !t.main.Limiting? && a != InLoop(LoopMove.Tick))
  {
    match a
    case InLoop(m) =>
      var k :| Prefix(s.gs, s.main, s.cancelled, k);
      LoopGrants(s, m, k);
    case Task(i, m) => TaskGrants(s, i, m);
    case Below(_) =>
    case Cancel =>
  }

  lemma {:induction false} RunGrants(s: WorkState, acts: seq<WorkAction>)
    requires WorkInv(s) && CanWork(s, acts)
    ensures s.limited ==> Granted(WorkRun(s, acts)) == Granted(s) + Ticks(acts)
    ensures !s.limited && !s.main.Limiting? ==> Ticks(acts) == 0
    decreases |acts|
  {
    if acts != [] {
      StepGrants(s, acts[0]);
      WorkStepInv(s, acts[0]);
      RunGrants(WorkApply(s, acts[0]), acts[1..]);
    }
  }

  /**
   With a rate limit every spawned task has taken a tick of its own, and at most one
   tick is taken for a task not spawned yet; without one no tick is waited for.
   */
  lemma OneTickEach(s: WorkState, acts: seq<WorkAction>)
    requires WorkInit(s) && CanWork(s, acts)
    ensures var t := WorkRun(s, acts);
      if s.limited then SumOf(Spawned, t.gs) <= Ticks(acts) <= SumOf(Spawned, t.gs) + 1 else Ticks(acts) == 0
  {
    WorkInitInv(s);
    SumOfZero(Spawned, s.gs);
    RunGrants(s, acts);
  }
}
