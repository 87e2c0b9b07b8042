/** What holds of every state the pool can reach, in every interleaving. */
module PoolTheorems {
  import opened Sums
  import opened PoolProtocol
  import opened PoolCounts
  import opened PoolInvariant

  /** s comes up in some run of a new pool. */
  ghost predicate Reachable(s: State) {
    exists s0, acts :: Init(s0) && CanRun(s0, acts) && Run(s0, acts) == s
  }

  lemma ReachableInv(s: State)
    requires Reachable(s)
    ensures Inv(s)
  {
    var s0, acts :| Init(s0) && CanRun(s0, acts) && Run(s0, acts) == s;
    InitInv(s0);
    RunInv(s0, acts);
  }

  // ---- ownership ----

  ghost predicate Idle(s: State, k: Kind, i: int, b: Browser) {
    k in s.idle && 0 <= i < |s.idle[k]| && s.idle[k][i].browser == b
  }

  ghost predicate Held(s: State, i: int, b: Browser) {
    0 <= i < |s.clients| && HasBrowser(s.clients[i]) && s.clients[i].browser == b
  }

  ghost predicate Closed(s: State, i: int, b: Browser) {
    0 <= i < |s.closeLog| && s.closeLog[i] == b
  }

  lemma IdleCounts(s: State, k: Kind, i: int, b: Browser)
    requires Idle(s, k, i, b)
    ensures IdleCount(Only(b), s.idle) >= 1
  {
    IdleCountAt(Only(b), s.idle, k);
    SlotCountAtLeast(s.idle[k], i);
  }

  lemma TwoSlots(s: State, k: Kind, i: int, k': Kind, i': int, b: Browser)
    requires Idle(s, k, i, b) && Idle(s, k', i', b) && (k != k' || i < i')
    ensures IdleCount(Only(b), s.idle) >= 2
  {
    IdleCountAt(Only(b), s.idle, k);
    if k == k' {
      SlotCountTwice(s.idle[k], i, i');
    } else {
      IdleCountAt(Only(b), s.idle - {k}, k');
      SlotCountAtLeast(s.idle[k], i);
      SlotCountAtLeast(s.idle[k'], i');
    }
  }

  lemma HeldCounts(s: State, i: int, b: Browser)
    requires Held(s, i, b)
    ensures Sum(Holds(b), s.clients) >= 1
  {
    SumAtLeast(Holds(b), s.clients, i);
  }

  lemma ClosedTwice(log: seq<Browser>, i: nat, j: nat)
    requires i < j < |log| && log[i] == log[j]
    ensures Times(log, log[i]) >= 2
  {
    assert log == log[..j] + log[j..];
    assert log[i] in log[..j] && log[j] in log[j..];
    assert multiset(log) == multiset(log[..j]) + multiset(log[j..]);
  }

  lemma OnePlaceAtMost(s: State, b: Browser)
    requires Places(s, b) <= 1
    ensures forall i, j :: Held(s, i, b) && Held(s, j, b) ==> i == j
    ensures forall i, j :: Closed(s, i, b) && Closed(s, j, b) ==> i == j
    ensures forall k, i, j :: !(Idle(s, k, i, b) && Held(s, j, b))
    ensures forall k, i, j :: !(Idle(s, k, i, b) && Closed(s, j, b))
    ensures forall i, j :: !(Held(s, i, b) && Closed(s, j, b))
  {
    forall k, i | Idle(s, k, i, b) ensures IdleCount(Only(b), s.idle) >= 1 { IdleCounts(s, k, i, b); }
    forall i | Held(s, i, b) ensures Sum(Holds(b), s.clients) >= 1 { HeldCounts(s, i, b); }
    forall i | Closed(s, i, b) ensures Times(s.closeLog, b) >= 1 { assert b in s.closeLog; }
    forall i, j | Held(s, i, b) && Held(s, j, b) ensures i == j {
      if i < j { SumAtLeastTwo(Holds(b), s.clients, i, j); }
      if j < i { SumAtLeastTwo(Holds(b), s.clients, j, i); }
    }
    forall i, j | Closed(s, i, b) && Closed(s, j, b) ensures i == j {
      if i < j { ClosedTwice(s.closeLog, i, j); }
      if j < i { ClosedTwice(s.closeLog, j, i); }
    }
  }

  lemma OneSlotAtMost(s: State, b: Browser)
    requires Places(s, b) <= 1
    ensures forall k, i, k', i' :: Idle(s, k, i, b) && Idle(s, k', i', b) ==> k == k' && i == i'
  {
    forall k, i, k', i' | Idle(s, k, i, b) && Idle(s, k', i', b) ensures k == k' && i == i' {
      if k != k' || i < i' { TwoSlots(s, k, i, k', i', b); }
      if i' < i { TwoSlots(s, k', i', k, i, b); }
    }
  }

  lemma SomePlaceCounts(s: State, b: Browser)
    requires (exists k, i :: Idle(s, k, i, b)) || (exists i :: Held(s, i, b)) || (exists i :: Closed(s, i, b))
    ensures Places(s, b) > 0
  {
    if k, i :| Idle(s, k, i, b) {
      IdleCounts(s, k, i, b);
    } else if i :| Held(s, i, b) {
      HeldCounts(s, i, b);
    } else {
      assert b in s.closeLog;
    }
  }

  /**
   Exclusive ownership: a created browser is in one idle slot of the one stack of
   its kind, or in one client's hands, or closed once, and nowhere else.
   */
  lemma OneOwner(s: State, b: Browser)
    requires Reachable(s)
    ensures b < |s.created| <==>
      (exists k, i :: Idle(s, k, i, b)) || (exists i :: Held(s, i, b)) || (exists i :: Closed(s, i, b))
    ensures forall k, i, k', i' :: Idle(s, k, i, b) && Idle(s, k', i', b) ==> k == k' && i == i'
    ensures forall k, i :: Idle(s, k, i, b) ==> b < |s.created| && s.created[b] == k
    ensures forall i, j :: Held(s, i, b) && Held(s, j, b) ==> i == j
    ensures forall i, j :: Closed(s, i, b) && Closed(s, j, b) ==> i == j
    ensures forall k, i, j :: !(Idle(s, k, i, b) && Held(s, j, b))
    ensures forall k, i, j :: !(Idle(s, k, i, b) && Closed(s, j, b))
    ensures forall i, j :: !(Held(s, i, b) && Closed(s, j, b))
  {
    ReachableInv(s);
    assert Places(s, b) == if b < |s.created| then 1 else 0;
    OnePlaceAtMost(s, b);
    OneSlotAtMost(s, b);
    if b < |s.created| { Somewhere(s, b); }
    if (exists k, i :: Idle(s, k, i, b)) || (exists i :: Held(s, i, b)) || (exists i :: Closed(s, i, b)) {
      SomePlaceCounts(s, b);
    }
    forall k, i | Idle(s, k, i, b) ensures b < |s.created| && s.created[b] == k {
      assert s.idle[k][i] in s.idle[k];
    }
  }

  lemma Somewhere(s: State, b: Browser)
    requires Places(s, b) > 0
    ensures (exists k, i :: Idle(s, k, i, b)) || (exists i :: Held(s, i, b)) || (exists i :: Closed(s, i, b))
  {
    if IdleCount(Only(b), s.idle) > 0 {
      var k, i := IdleCountPositive(s.idle, b);
      assert Idle(s, k, i, b);
    } else if Sum(Holds(b), s.clients) > 0 {
      var i := SumPositive(Holds(b), s.clients);
      assert Held(s, i, b);
    } else {
      var i :| 0 <= i < |s.closeLog| && s.closeLog[i] == b;
      assert Closed(s, i, b);
    }
  }

  // ---- how many browsers live ----

  function FirstBrowsers(n: nat): (r: set<Browser>)
    ensures |r| == n
    ensures forall b: Browser :: b in r <==> b < n
  {
    if n == 0 then {} else FirstBrowsers(n - 1) + {n - 1}
  }

  /** Browsers returned by Create on which Close was not called yet. */
  function Live(s: State): set<Browser> {
    FirstBrowsers(|s.created|) - LogSet(s.closeLog)
  }

  function LogSet(log: seq<Browser>): set<Browser> {
    set b | b in log
  }

  lemma {:induction false} DistinctLog(log: seq<Browser>)
    requires forall b: Browser :: Times(log, b) <= 1
    ensures |LogSet(log)| == |log|
    decreases |log|
  {
    if log != [] {
      var init, last := log[..|log| - 1], log[|log| - 1];
      assert log == init + [last];
      forall b: Browser ensures Times(init, b) <= 1 && (b == last ==> Times(init, b) == 0) {
        assert Times(log, b) == Times(init, b) + Times([last], b);
      }
      DistinctLog(init);
      assert last !in init by { assert Times(init, last) == 0; }
      assert LogSet(log) == LogSet(init) + {last};
    }
  }

  lemma LiveCount(s: State)
    requires Owned(s)
    ensures |Live(s)| == |s.created| - |s.closeLog|
  {
    forall b: Browser ensures Times(s.closeLog, b) <= if b < |s.created| then 1 else 0 {
      assert Places(s, b) == if b < |s.created| then 1 else 0;
    }
    DistinctLog(s.closeLog);
    assert LogSet(s.closeLog) <= FirstBrowsers(|s.created|) by {
      forall b | b in s.closeLog ensures b < |s.created| { assert Times(s.closeLog, b) >= 1; }
    }
    assert FirstBrowsers(|s.created|) == Live(s) + LogSet(s.closeLog);
  }

  lemma {:induction false} HandsBounded(ps: seq<Phase>)
    ensures Sum(Hands, ps) <= Sum(InUse, ps) + Sum(Spare, ps)
  {
    if ps != [] { HandsBounded(ps[..|ps| - 1]); }
  }

  /** The pool never has more live browsers than total, nor total above the configured maximum. */
  lemma LiveBound(s: State)
    requires Reachable(s)
    ensures |Live(s)| <= s.total <= (if s.maxInstances > 0 then s.maxInstances else 0)
  {
    ReachableInv(s);
    LiveCount(s);
    HandsBounded(s.clients);
  }

  lemma ClosedOnce(s: State, b: Browser)
    requires Owned(s) && s.idle == map[]
    requires forall i | 0 <= i < |s.clients| :: s.clients[i].Outside?
    ensures Times(s.closeLog, b) == if b < |s.created| then 1 else 0
  {
    assert Places(s, b) == if b < |s.created| then 1 else 0;
    SumZero(Holds(b), s.clients);
  }

  /** After Close, once every client is outside, every browser ever created was closed exactly once. */
  lemma NothingLeaks(s: State)
    requires Reachable(s) && s.drained
    requires forall i | 0 <= i < |s.clients| :: s.clients[i].Outside?
    ensures Live(s) == {}
    ensures forall b: Browser :: Times(s.closeLog, b) == if b < |s.created| then 1 else 0
  {
    ReachableInv(s);
    forall b: Browser ensures Times(s.closeLog, b) == if b < |s.created| then 1 else 0 {
      ClosedOnce(s, b);
    }
    forall b | b in FirstBrowsers(|s.created|) ensures b in s.closeLog {
      assert Times(s.closeLog, b) == 1;
    }
  }

  // ---- accounting ----

  /** The three numbers of Stats, as Stats computes them. */
  ghost function Available(s: State): nat {
    MapSum(map k | k in s.idle :: |s.idle[k]|)
  }

  lemma NoneSpare(s: State)
    requires Locks(s) && Closing(s) && s.lock.Free? && !s.crashed
    ensures Sum(Spare, s.clients) == 0
  {
    forall i | 0 <= i < |s.clients| ensures W(Spare, s.clients[i]) == 0 {
      assert InSection(s.clients[i]) <==> s.lock == HeldBy(i);
    }
    SumZero(Spare, s.clients);
  }

  /**
   While nobody is inside the critical section, Stats returns Total == Available +
   InUse until Close empties the stacks; from then on Total is too high by the number
   of idle browsers that Close closed. Until the closed flag is set, InUse counts the
   clients between reservation or reuse and the end of their release; from then on it
   is too high by the number of releases that found the pool closed.
   */
  lemma StatsBalance(s: State)
    requires Reachable(s) && s.lock.Free? && !s.crashed
    ensures s.total == Available(s) + s.inUse + Count(s.counts, DrainedIdle)
    ensures !s.drained ==> Count(s.counts, DrainedIdle) == 0
    ensures s.inUse == Sum(InUse, s.clients) + Count(s.counts, Abandoned)
    ensures !s.closed ==> Count(s.counts, Abandoned) == 0
  {
    ReachableInv(s);
    IdleCountIsSum(s.idle);
    NoneSpare(s);
  }

  /** The counters of Metrics add up in every state of every run, also after Close. */
  lemma MetricsConservation(s: State)
    requires Reachable(s)
    ensures s.total == Count(s.counts, CreateTotal) + Sum(Reserved, s.clients)
                       - Count(s.counts, EvictTotal) - Count(s.counts, BrokenReleases)
    ensures Count(s.counts, AcquireTotal) == Count(s.counts, AcquireSuccess) + Count(s.counts, AcquireFail)
                       + Sum(Acquiring, s.clients) + Count(s.counts, WaitsEnded)
    ensures Count(s.counts, AcquireSuccess) == Count(s.counts, CreateTotal) + Count(s.counts, ReuseTotal)
                       + Sum(Counted, s.clients)
    ensures Count(s.counts, ReleaseTotal) == Count(s.counts, PutBacks) + Count(s.counts, BrokenReleases)
                       + Sum(Releasing, s.clients)
  {
    ReachableInv(s);
  }

  predicate BetweenCalls(p: Phase) {
    p.Outside? || p.Holding?
  }

  lemma NobodyCalls(w: Weight, clients: seq<Phase>)
    requires w.Reserved? || w.Acquiring? || w.Counted? || w.Releasing?
    requires forall i | 0 <= i < |clients| :: BetweenCalls(clients[i])
    ensures Sum(w, clients) == 0
  {
    forall i | 0 <= i < |clients| ensures W(w, clients[i]) == 0 { assert BetweenCalls(clients[i]); }
    SumZero(w, clients);
  }

  /** With no call in progress, no summand for unfinished calls is left; clients may hold browsers. */
  lemma MetricsAtRest(s: State)
    requires Reachable(s)
    requires forall i | 0 <= i < |s.clients| :: BetweenCalls(s.clients[i])
    ensures s.total == Count(s.counts, CreateTotal) - Count(s.counts, EvictTotal) - Count(s.counts, BrokenReleases)
    ensures Count(s.counts, AcquireTotal)
         == Count(s.counts, AcquireSuccess) + Count(s.counts, AcquireFail) + Count(s.counts, WaitsEnded)
    ensures Count(s.counts, AcquireSuccess) == Count(s.counts, ReuseTotal) + Count(s.counts, CreateTotal)
    ensures Count(s.counts, ReleaseTotal) == Count(s.counts, PutBacks) + Count(s.counts, BrokenReleases)
  {
    MetricsConservation(s);
    NobodyCalls(Reserved, s.clients);
    NobodyCalls(Acquiring, s.clients);
    NobodyCalls(Counted, s.clients);
    NobodyCalls(Releasing, s.clients);
  }

  /** Acquire hands out browsers of the kind asked for. */
  lemma RightKind(s: State, i: nat)
    requires Reachable(s) && i < |s.clients| && s.clients[i].Holding?
    ensures s.clients[i].browser < |s.created| && s.created[s.clients[i].browser] == s.clients[i].kind
  {
    ReachableInv(s);
    assert KindOk(s, s.clients[i]);
  }

  /** At most one client is between taking and giving back the mutex. */
  lemma MutualExclusion(s: State, i: nat, j: nat)
    requires Reachable(s) && i < |s.clients| && j < |s.clients|
    requires InSection(s.clients[i]) && InSection(s.clients[j])
    ensures i == j
  {
    ReachableInv(s);
    assert s.lock == HeldBy(i) && s.lock == HeldBy(j);
  }

  /** A pop takes the most recently released browser of the stack. */
  lemma PopNewest(s: State, i: nat, b: Browser)
    requires Reachable(s) && Enabled(s, Client(i, Pop))
    requires Apply(s, Client(i, Pop)).clients[i].browser == b
    ensures var st := Stack(s.idle, s.clients[i].kind);
      st[|st| - 1].browser == b && forall e | e in st :: e.lastUsed <= st[|st| - 1].lastUsed <= s.now
  {
    ReachableInv(s);
    var st := Stack(s.idle, s.clients[i].kind);
    assert Sorted(st, s.now);
  }

  // ---- closed browsers stay away ----

  lemma {:induction false} LogGrows(s: State, acts: seq<Action>)
    requires CanRun(s, acts)
    ensures s.closeLog <= Run(s, acts).closeLog
    decreases |acts|
  {
    if acts != [] { LogGrows(Apply(s, acts[0]), acts[1..]); }
  }

  /** A closed browser is closed once and for all: from then on nobody gets it and no stack has it. */
  lemma ClosedForGood(s: State, b: Browser, acts: seq<Action>)
    requires Reachable(s) && b in s.closeLog && CanRun(s, acts)
    ensures var t := Run(s, acts);
      Times(t.closeLog, b) == 1 && forall k, j :: !Idle(t, k, j, b) && !Held(t, j, b)
  {
    ReachableInv(s);
    RunInv(s, acts);
    LogGrows(s, acts);
    var t := Run(s, acts);
    assert Places(t, b) == if b < |t.created| then 1 else 0;
    OnePlaceAtMost(t, b);
    var j :| 0 <= j < |s.closeLog| && s.closeLog[j] == b;
    assert Closed(t, j, b);
    assert Times(t.closeLog, b) > 0;
  }

  /** Client i is on its way to closing b, or b is closed. */
  predicate Doomed(s: State, i: nat, b: Browser) {
    || b in s.closeLog
    || (i < |s.clients| && (s.clients[i] == Leaving(b, true) || s.clients[i] == Breaking(b)))
  }

  lemma DoomedStep(s: State, a: Action, i: nat, b: Browser)
    requires Doomed(s, i, b) && Enabled(s, a)
    ensures Doomed(Apply(s, a), i, b)
  {
    var t := Apply(s, a);
    assert s.closeLog <= t.closeLog;
    if b !in s.closeLog && a.Client? && a.i == i && a.move.CloseBroken? {
      assert t.closeLog[|s.closeLog|] == b;
    }
  }

  /** Once a Release with a connection error is past the closed check, its browser is never idle again. */
  lemma {:induction false} BrokenNeverIdle(s: State, i: nat, b: Browser, acts: seq<Action>)
    requires Reachable(s) && i < |s.clients| && s.clients[i] == Leaving(b, true) && CanRun(s, acts)
    ensures forall k, j :: !Idle(Run(s, acts), k, j, b)
  {
    ReachableInv(s);
    RunInv(s, acts);
    DoomedRun(s, i, b, acts);
    var t := Run(s, acts);
    assert Places(t, b) == if b < |t.created| then 1 else 0;
    OnePlaceAtMost(t, b);
    if b in t.closeLog {
      var j :| 0 <= j < |t.closeLog| && t.closeLog[j] == b;
      assert Closed(t, j, b);
    } else {
      assert Held(t, i, b);
    }
  }

  lemma {:induction false} DoomedRun(s: State, i: nat, b: Browser, acts: seq<Action>)
    requires Doomed(s, i, b) && CanRun(s, acts)
    ensures Doomed(Run(s, acts), i, b)
    decreases |acts|
  {
    if acts != [] {
      DoomedStep(s, acts[0], i, b);
      DoomedRun(Apply(s, acts[0]), i, b, acts[1..]);
    }
  }

  // ---- the append to a nil map ----

  /** Client i has passed Release's closed check and is going to put its browser back. */
  predicate PuttingBack(p: Phase) {
    p.Returning? || (p.Leaving? && !p.broken)
  }

  ghost predicate Window(s: State) {
    exists i :: 0 <= i < |s.clients| && PuttingBack(s.clients[i])
  }

  lemma NoWindowMove(s: State, i: nat, move: Move)
    requires s.closed && i < |s.clients| && MoveEnabled(s, i, move) && !PuttingBack(s.clients[i])
    ensures var e := MoveEffect(s, i, move); !PuttingBack(e.next) && !e.next.Panicked?
  {
  }

  lemma NoWindowStep(s: State, a: Action)
    requires s.closed && !Window(s) && Enabled(s, a)
    ensures var t := Apply(s, a); t.closed && !Window(t) && !t.crashed
  {
    if a.Client? {
      assert !PuttingBack(s.clients[a.i]);
      NoWindowMove(s, a.i, a.move);
    }
    var t := Apply(s, a);
    forall i | 0 <= i < |t.clients| ensures !PuttingBack(t.clients[i]) {
      assert !PuttingBack(s.clients[i]);
    }
  }

  lemma {:induction false} NoWindowRun(s: State, acts: seq<Action>)
    requires s.closed && !s.crashed && !Window(s) && CanRun(s, acts)
    ensures !Run(s, acts).crashed
    decreases |acts|
  {
    if acts != [] {
      NoWindowStep(s, acts[0]);
      NoWindowRun(Apply(s, acts[0]), acts[1..]);
    }
  }

  lemma {:induction false} Listing(idle: map<Kind, seq<Entry>>) returns (bs: seq<Browser>)
    ensures Removes(idle, map[], bs)
    decreases |idle|
  {
    if idle == map[] {
      bs := [];
    } else {
      var k := AnyKey(idle);
      var rest := Listing(idle - {k});
      var own := ListingOf(idle[k]);
      bs := own + rest;
      forall b: Browser ensures IdleCount(Only(b), idle) == Times(bs, b) {
        assert Times(bs, b) == Times(own, b) + Times(rest, b);
        assert IdleCount(Only(b), idle - {k}) == IdleCount(Only(b), map[]) + Times(rest, b);
      }
    }
  }

  lemma {:induction false} ListingOf(es: seq<Entry>) returns (bs: seq<Browser>)
    ensures |bs| == |es|
    ensures forall b: Browser :: SlotCount(Only(b), es) == Times(bs, b)
  {
    if es == [] {
      bs := [];
    } else {
      var rest := ListingOf(es[..|es| - 1]);
      bs := rest + [es[|es| - 1].browser];
      forall b: Browser ensures SlotCount(Only(b), es) == Times(bs, b) {
        assert Times(bs, b) == Times(rest, b) + Times([es[|es| - 1].browser], b);
      }
    }
  }

  lemma CanRunAfter(s: State, a: Action, rest: seq<Action>)
    requires Enabled(s, a) && CanRun(Apply(s, a), rest)
    ensures CanRun(s, [a] + rest) && Run(s, [a] + rest) == Run(Apply(s, a), rest)
  {
    assert ([a] + rest)[1..] == rest;
  }

  /** At most two steps of a client putting back take a drained pool into the panic. */
  lemma WindowCrashes(s: State, i: nat) returns (acts: seq<Action>)
    requires s.drained && !s.crashed && s.lock.Free? && i < |s.clients| && PuttingBack(s.clients[i])
    ensures CanRun(s, acts) && Run(s, acts).crashed
  {
    var put := Client(i, PutBack);
    if s.clients[i].Returning? {
      CanRunAfter(s, put, []);
      acts := [put] + [];
    } else {
      var count := Client(i, CountRelease);
      var t := Apply(s, count);
      CanRunAfter(t, put, []);
      CanRunAfter(s, count, [put] + []);
      acts := [count] + ([put] + []);
    }
  }

  /** With the mutex free: Close empties the stacks if it has not yet, and the client goes on. */
  lemma WindowPanics(s: State, i: nat) returns (acts: seq<Action>)
    requires s.closed && !s.crashed && s.lock.Free? && i < |s.clients| && PuttingBack(s.clients[i])
    ensures CanRun(s, acts) && Run(s, acts).crashed
  {
    if s.drained {
      acts := WindowCrashes(s, i);
    } else {
      var bs := Listing(s.idle);
      var drain := Drain(bs);
      var rest := WindowCrashes(Apply(s, drain), i);
      CanRunAfter(s, drain, rest);
      acts := [drain] + rest;
    }
  }

  /** The move by which a client inside the section leaves it, unless it has to ping first. */
  function Exit(s: State, h: nat): Move
    requires h < |s.clients| && InSection(s.clients[h])
  {
    var p := s.clients[h];
    if p.Pinging? then PingOk
    else if !p.polling && p.kind !in s.providers then NoProvider
    else if Stack(s.idle, p.kind) != [] then Pop
    else if p.polling || s.total >= s.maxInstances then GiveUp
    else Reserve
  }

  lemma ExitMoves(s: State, h: nat, i: nat)
    requires h < |s.clients| && InSection(s.clients[h]) && !s.crashed && s.closed
    requires i < |s.clients| && PuttingBack(s.clients[i])
    ensures Enabled(s, Client(h, Exit(s, h)))
    ensures var t := Apply(s, Client(h, Exit(s, h)));
      && t.closed && !t.crashed && |t.clients| == |s.clients| && t.clients[i] == s.clients[i]
      && (t.lock.Free? || (Exit(s, h).Pop? && t.clients[h].Pinging?))
  {
  }

  /** With the mutex held: its holder needs at most two moves to give it back. */
  lemma HeldPanics(s: State, h: nat, i: nat) returns (acts: seq<Action>)
    requires s.closed && !s.crashed && h < |s.clients| && InSection(s.clients[h])
    requires i < |s.clients| && PuttingBack(s.clients[i])
    ensures CanRun(s, acts) && Run(s, acts).crashed
    decreases if s.clients[h].Pinging? then 0 else 1
  {
    var a := Client(h, Exit(s, h));
    var t := Apply(s, a);
    ExitMoves(s, h, i);
    var rest;
    if t.lock.Free? { rest := WindowPanics(t, i); } else { rest := HeldPanics(t, h, i); }
    CanRunAfter(s, a, rest);
    acts := [a] + rest;
  }

  /**
   The panic in Release. From the start of Close on, some continuation of the run
   panics if and only if some client has passed Release's closed check on its way to
   putting a browser back.
   */
  lemma PanicIffReleaseInFlight(s: State)
    requires Reachable(s) && s.closed && !s.crashed
    ensures Window(s) <==> exists acts :: CanRun(s, acts) && Run(s, acts).crashed
  {
    if Window(s) {
      var i :| 0 <= i < |s.clients| && PuttingBack(s.clients[i]);
      ReachableInv(s);
      if s.lock.Free? {
        var acts := WindowPanics(s, i);
      } else {
        assert InSection(s.clients[s.lock.client]);
        var acts := HeldPanics(s, s.lock.client, i);
      }
    } else {
      forall acts | CanRun(s, acts) ensures !Run(s, acts).crashed {
        NoWindowRun(s, acts);
      }
    }
  }
}
