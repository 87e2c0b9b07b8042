/**
Worker.Run as a concurrent step system: the loop that spawns one goroutine per
task, the goroutines with their semaphore and wait group, a context that may be
cancelled at any time, and below them the fetches and the pool.
*/
module WorkerProtocol {
  import opened Sums
  import opened FetchProtocol

  /** A slot of the result list: the zero value, a context error, or what a fetch returned. */
  datatype Slot = Blank | Cancelled(url: string) | Fetched(url: string, ok: bool)

  /** Where Run is. */
  datatype Loop =
    | Scanning(i: nat)   // at the context check of the loop
    | Limiting(i: nat)   // waiting for the rate limiter
    | Spawning(i: nat)
    | Filling(j: nat)    // writing the context error to the remaining slots
    | Joining            // wg.Wait
    | Returned

  /** Where the goroutine of a task is. */
  datatype Phase =
    | Unspawned
    | AtGate             // selecting between the semaphore and the context
    | Running
    | Written            // the result is in its slot
    | Reported           // OnResult has returned
    | Leaving(entered: bool)
    | Over(entered: bool)

  datatype Goroutine = Goroutine(url: string, phase: Phase, slot: Slot, writes: nat, callbacks: nat)

  /** Task i is goroutine i and, while it runs, fetcher i. */
  datatype WorkState = WorkState(
    fetch: FetchState,
    gs: seq<Goroutine>,
    main: Loop,
    sem: nat,
    wg: int,
    cancelled: bool,
    concurrency: nat,
    limited: bool,      // a rate limit is configured
    callback: bool)     // OnResult is set

  datatype LoopMove = PassCheck | SeeCancelled | Tick | LimitCancelled | Spawn | Fill | EndLoop | Join
  datatype TaskMove = Enter | Refuse | Write | Report | Free | Done

  datatype WorkAction =
    | InLoop(m: LoopMove)
    | Task(i: nat, t: TaskMove)
    | Below(f: FetchAction)
    | Cancel

  predicate LoopEnabled(s: WorkState, m: LoopMove) {
    var n := |s.gs|;
    match m
    case PassCheck => s.main.Scanning? && s.main.i < n && !s.cancelled
    case SeeCancelled => s.main.Scanning? && s.main.i < n && s.cancelled
    case Tick => s.main.Limiting? && s.main.i < n
    case LimitCancelled => s.main.Limiting? && s.main.i < n && s.cancelled
    case Spawn => s.main.Spawning? && s.main.i < n
    case Fill => s.main.Filling? && s.main.j < n
    case EndLoop => (s.main.Scanning? && s.main.i == n) || (s.main.Filling? && s.main.j == n)
    case Join => s.main.Joining? && s.wg == 0
  }

  /** How far the loop of Run has decided about n tasks. */
  function Frontier(loop: Loop, n: nat): nat {
    match loop
    case Scanning(i) => i
    case Limiting(i) => i
    case Spawning(i) => i
    case Filling(j) => j
    case _ => n
  }

  function WriteSlot(g: Goroutine, slot: Slot): Goroutine {
    g.(slot := slot, writes := g.writes + 1)
  }

  /** Where the loop is after its move. */
  function LoopOn(s: WorkState, m: LoopMove): Loop {
    match s.main
    case Scanning(i) =>
      if m.PassCheck? then (if s.limited then Limiting(i) else Spawning(i))
      else if m.SeeCancelled? then Filling(i)
      else Joining
    case Limiting(i) => if m.Tick? then Spawning(i) else Scanning(i + 1)
    case Spawning(i) => Scanning(i + 1)
    case Filling(j) => if m.Fill? then Filling(j + 1) else Joining
    case _ => Returned
  }

  /** What the loop does to the task it is at. */
  function Decided(g: Goroutine, m: LoopMove): Goroutine {
    match m
    case Spawn => g.(phase := AtGate)
    case LimitCancelled => WriteSlot(g, Cancelled(g.url))
    case Fill => WriteSlot(g, Cancelled(g.url))
    case _ => g
  }

  function LoopNext(s: WorkState, m: LoopMove): WorkState {
    var i := Frontier(s.main, |s.gs|);
    s.(main := LoopOn(s, m),
       wg := if m.Spawn? then s.wg + 1 else s.wg,
       gs := if i < |s.gs| then s.gs[i := Decided(s.gs[i], m)] else s.gs)
  }

  /** The fetch has returned. */
  predicate FetchOver(f: Fetcher) {
    f.stage.Succeeded? || f.stage.Failed?
  }

  predicate TaskEnabled(s: WorkState, i: nat, t: TaskMove)
    requires i < |s.gs| == |s.fetch.fetchers|
  {
    var p := s.gs[i].phase;
    match t
    case Enter => p.AtGate? && s.sem < s.concurrency
    case Refuse => p.AtGate? && s.cancelled
    case Write => p.Running? && FetchOver(s.fetch.fetchers[i])
    case Report => p.Written?
    case Free => p.Reported? && s.sem > 0
    case Done => p.Leaving?
  }

  /** The goroutine after its move. */
  function TaskOn(g: Goroutine, f: Fetcher, callback: bool, t: TaskMove): Goroutine {
    match t
    case Enter => g.(phase := Running)
    case Refuse => WriteSlot(g, Cancelled(g.url)).(phase := Leaving(false))
    case Write => WriteSlot(g, Fetched(g.url, f.stage.Succeeded?)).(phase := Written)
    case Report => g.(phase := Reported, callbacks := if callback then g.callbacks + 1 else g.callbacks)
    case Free => g.(phase := Leaving(true))
    case Done => g.(phase := Over(g.phase.Leaving? && g.phase.entered))
  }

  function TaskNext(s: WorkState, i: nat, t: TaskMove): WorkState
    requires i < |s.gs| == |s.fetch.fetchers| && TaskEnabled(s, i, t)
  {
    s.(sem := if t.Enter? then s.sem + 1 else if t.Free? then s.sem - 1 else s.sem,
       wg := if t.Done? then s.wg - 1 else s.wg,
       gs := s.gs[i := TaskOn(s.gs[i], s.fetch.fetchers[i], s.callback, t)])
  }

  /** A fetch starts only when its goroutine has entered. */
  ghost predicate BelowEnabled(s: WorkState, f: FetchAction) {
    && FetchActionEnabled(s.fetch, f)
    && (f.Fetch? && f.move.Start? ==> f.i < |s.gs| && s.gs[f.i].phase.Running?)
  }

  ghost predicate WorkEnabled(s: WorkState, a: WorkAction) {
    && |s.gs| == |s.fetch.fetchers|
    && match a
       case InLoop(m) => LoopEnabled(s, m)
       case Task(i, t) => i < |s.gs| && TaskEnabled(s, i, t)
       case Below(f) => BelowEnabled(s, f)
       case Cancel => !s.cancelled
  }

  ghost function WorkApply(s: WorkState, a: WorkAction): WorkState {
    match a
    case InLoop(m) => LoopNext(s, m)
    case Task(i, t) => if i < |s.gs| == |s.fetch.fetchers| && TaskEnabled(s, i, t) then TaskNext(s, i, t) else s
    case Below(f) => s.(fetch := FetchApply(s.fetch, f))
    case Cancel => s.(cancelled := true)
  }

  ghost predicate WorkInit(s: WorkState) {
    && FetchInit(s.fetch) && |s.gs| == |s.fetch.fetchers|
    && (forall i | 0 <= i < |s.gs| ::
          var g := s.gs[i]; g.phase.Unspawned? && g.slot.Blank? && g.writes == 0 && g.callbacks == 0)
    && s.main == Scanning(0) && s.sem == 0 && s.wg == 0
    && s.concurrency > 0   // NewWorker replaces a concurrency of 0 or less by its default of 4
  }

  // ---- invariants ----

  function OnSem(g: Goroutine): nat {
    if g.phase.Running? || g.phase.Written? || g.phase.Reported? then 1 else 0
  }

  function OnWg(g: Goroutine): nat {
    if g.phase.Unspawned? || g.phase.Over? then 0 else 1
  }

  /** What a goroutine's phase says of its fetch, its slot and its callback. */
  predicate GoroutineOk(g: Goroutine, f: Fetcher, cancelled: bool, callback: bool) {
    match g.phase
    case Unspawned => f.stage.Ready? && g.callbacks == 0
    case AtGate => f.stage.Ready? && g.writes == 0 && g.callbacks == 0
    case Running => g.writes == 0 && g.callbacks == 0
    case Written => Entered(g, f) && g.callbacks == 0
    case Reported => Entered(g, f) && g.callbacks == Calls(callback)
    case Leaving(entered) => Concluded(g, f, cancelled, callback, entered)
    case Over(entered) => Concluded(g, f, cancelled, callback, entered)
  }

  function Calls(callback: bool): nat {
    if callback then 1 else 0
  }

  /** The slot of a task that entered has the outcome of its fetch. */
  predicate Entered(g: Goroutine, f: Fetcher) {
    g.writes == 1 && FetchOver(f) && g.slot == Fetched(g.url, f.stage.Succeeded?)
  }

  /** A task turned away at the gate never fetched. */
  predicate Concluded(g: Goroutine, f: Fetcher, cancelled: bool, callback: bool, entered: bool) {
    if entered then Entered(g, f) && g.callbacks == Calls(callback)
    else cancelled && f.stage.Ready? && g.writes == 1 && g.callbacks == 0 && g.slot == Cancelled(g.url)
  }

  predicate Skipped(g: Goroutine) {
    g.phase.Unspawned? && g.writes == 1 && g.slot == Cancelled(g.url)
  }

  /** The first k tasks are spawned; the others up to the frontier have the context error. */
  predicate Prefix(gs: seq<Goroutine>, loop: Loop, cancelled: bool, k: nat) {
    var n := Frontier(loop, |gs|);
    && k <= n <= |gs|
    && (forall i | 0 <= i < k :: !gs[i].phase.Unspawned?)
    && (forall i | k <= i < n :: Skipped(gs[i]))
    && (forall i | n <= i < |gs| :: gs[i].phase.Unspawned? && gs[i].writes == 0)
    && (k < n ==> cancelled)
    && (loop.Limiting? || loop.Spawning? ==> k == n < |gs|)
    && (loop.Filling? ==> cancelled)
  }

  ghost predicate AllOk(s: WorkState) {
    && |s.gs| == |s.fetch.fetchers|
    && forall i | 0 <= i < |s.gs| :: GoroutineOk(s.gs[i], s.fetch.fetchers[i], s.cancelled, s.callback)
  }

  ghost predicate Counted(s: WorkState) {
    && s.sem == SumOf(OnSem, s.gs) <= s.concurrency
    && s.wg == SumOf(OnWg, s.gs)
  }

  ghost predicate WorkInv(s: WorkState) {
    && FetchInv(s.fetch)
    && AllOk(s)
    && (exists k :: Prefix(s.gs, s.main, s.cancelled, k))
    && Counted(s)
    && (s.main.Returned? ==> s.wg == 0)
    && s.concurrency > 0
  }

  lemma WorkInitInv(s: WorkState)
    requires WorkInit(s)
    ensures WorkInv(s)
  {
    FetchInitInv(s.fetch);
    SumOfZero(OnSem, s.gs);
    SumOfZero(OnWg, s.gs);
    assert Prefix(s.gs, s.main, s.cancelled, 0);
  }

  // ---- the invariant is kept ----

  /** The loop writes a slot or spawns at its frontier only. */
  lemma LoopPrefix(s: WorkState, m: LoopMove, k: nat)
    requires LoopEnabled(s, m) && Prefix(s.gs, s.main, s.cancelled, k)
    ensures var t := LoopNext(s, m); Prefix(t.gs, t.main, t.cancelled, if m.Spawn? then k + 1 else k)
  {
  }

  lemma LoopOk(s: WorkState, m: LoopMove, k: nat)
    requires LoopEnabled(s, m) && Prefix(s.gs, s.main, s.cancelled, k) && AllOk(s)
    ensures AllOk(LoopNext(s, m))
  {
  }

  lemma LoopCounted(s: WorkState, m: LoopMove, k: nat)
    requires LoopEnabled(s, m) && Prefix(s.gs, s.main, s.cancelled, k) && Counted(s)
    ensures Counted(LoopNext(s, m))
  {
    var i := Frontier(s.main, |s.gs|);
    if i < |s.gs| {
      var g := Decided(s.gs[i], m);
      assert OnSem(g) == OnSem(s.gs[i]) && OnWg(g) == OnWg(s.gs[i]) + if m.Spawn? then 1 else 0;
      SumOfUpdate(OnSem, s.gs, i, g);
      SumOfUpdate(OnWg, s.gs, i, g);
    }
  }

  lemma TaskPrefix(s: WorkState, i: nat, m: TaskMove, k: nat)
    requires AllOk(s) && i < |s.gs| && TaskEnabled(s, i, m) && Prefix(s.gs, s.main, s.cancelled, k)
    ensures var t := TaskNext(s, i, m); Prefix(t.gs, t.main, t.cancelled, k)
  {
  }

  lemma TaskOk(s: WorkState, i: nat, m: TaskMove)
    requires AllOk(s) && i < |s.gs| && TaskEnabled(s, i, m)
    ensures AllOk(TaskNext(s, i, m))
  {
  }

  lemma TaskCounted(s: WorkState, i: nat, m: TaskMove)
    requires AllOk(s) && Counted(s) && i < |s.gs| && TaskEnabled(s, i, m)
    ensures Counted(TaskNext(s, i, m))
  {
    var g := TaskOn(s.gs[i], s.fetch.fetchers[i], s.callback, m);
    SumOfUpdate(OnSem, s.gs, i, g);
    SumOfUpdate(OnWg, s.gs, i, g);
  }

  /** A returned Run has no goroutine left that could move. */
  lemma NoneLeft(s: WorkState, i: nat)
    requires Counted(s) && s.wg == 0 && i < |s.gs|
    ensures OnWg(s.gs[i]) == 0
  {
    SumOfAt(OnWg, s.gs, i);
  }

  /** A fetch only moves while its goroutine runs. */
  lemma BelowKeeps(s: WorkState, f: FetchAction, j: nat)
    requires AllOk(s) && BelowEnabled(s, f) && j < |s.gs|
    ensures |FetchApply(s.fetch, f).fetchers| == |s.gs|
    ensures s.gs[j].phase.Running? || FetchApply(s.fetch, f).fetchers[j] == s.fetch.fetchers[j]
  {
    assert GoroutineOk(s.gs[j], s.fetch.fetchers[j], s.cancelled, s.callback);
  }

  lemma BelowOk(s: WorkState, f: FetchAction)
    requires AllOk(s) && BelowEnabled(s, f)
    ensures AllOk(s.(fetch := FetchApply(s.fetch, f)))
  {
    var fs := FetchApply(s.fetch, f).fetchers;
    forall j | 0 <= j < |s.gs| ensures |fs| == |s.gs| && GoroutineOk(s.gs[j], fs[j], s.cancelled, s.callback) {
      assert GoroutineOk(s.gs[j], s.fetch.fetchers[j], s.cancelled, s.callback);
      BelowKeeps(s, f, j);
    }
  }

  lemma LoopStep(s: WorkState, m: LoopMove)
    requires WorkInv(s) && LoopEnabled(s, m)
    ensures WorkInv(LoopNext(s, m))
  {
    var k :| Prefix(s.gs, s.main, s.cancelled, k);
    LoopPrefix(s, m, k);
    LoopOk(s, m, k);
    LoopCounted(s, m, k);
  }

  lemma TaskStep(s: WorkState, i: nat, m: TaskMove)
    requires WorkInv(s) && i < |s.gs| && TaskEnabled(s, i, m)
    ensures WorkInv(TaskNext(s, i, m))
  {
    var k :| Prefix(s.gs, s.main, s.cancelled, k);
    TaskPrefix(s, i, m, k);
    TaskOk(s, i, m);
    TaskCounted(s, i, m);
    if s.main.Returned? { NoneLeft(s, i); }
  }

  lemma BelowStep(s: WorkState, f: FetchAction)
    requires WorkInv(s) && BelowEnabled(s, f)
    ensures WorkInv(s.(fetch := FetchApply(s.fetch, f)))
  {
    FetchStepInv(s.fetch, f);
    BelowOk(s, f);
  }

  lemma CancelStep(s: WorkState)
    requires WorkInv(s)
    ensures WorkInv(s.(cancelled := true))
  {
    var k :| Prefix(s.gs, s.main, s.cancelled, k);
    assert Prefix(s.gs, s.main, true, k);
  }

  lemma WorkStepInv(s: WorkState, a: WorkAction)
    requires WorkInv(s) && WorkEnabled(s, a)
    ensures WorkInv(WorkApply(s, a))
  {
    match a
    case InLoop(m) => LoopStep(s, m);
    case Task(i, m) => TaskStep(s, i, m);
    case Below(f) => BelowStep(s, f);
    case Cancel => CancelStep(s);
  }
}
