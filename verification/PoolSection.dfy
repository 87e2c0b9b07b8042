/**
The critical section of Acquire and waitForInstance, whatever else happens: the browser
that is taken is the newest one of its stack that is not found dead on the way, and one
is created only if all of them are.
*/
module PoolSection {
  import opened PoolProtocol
  import opened PoolInvariant
  import opened PoolTheorems

  /** Client i is inside the section now and after each of the actions. */
  ghost predicate StaysInside(s: State, i: nat, acts: seq<Action>)
    requires CanRun(s, acts)
    decreases |acts|
  {
    && i < |s.clients| && InSection(s.clients[i])
    && (acts != [] ==> StaysInside(Apply(s, acts[0]), i, acts[1..]))
  }

  /** Of the stack as it was when client i took the mutex, n entries are left, and those above are done with. */
  ghost predicate Popping(s: State, i: nat, k: Kind, st: seq<Entry>, n: nat) {
    && i < |s.clients| && InSection(s.clients[i]) && s.clients[i].kind == k
    && n <= |st| && Stack(s.idle, k) == st[..n]
    && (s.clients[i].Pinging? ==> n < |st| && s.clients[i].browser == st[n].browser)
    && forall j | n <= j < |st| :: st[j].browser in s.closeLog || (j == n && s.clients[i].Pinging?)
  }

  /** What the mutex guards. */
  predicate SameGuarded(s: State, t: State) {
    && t.idle == s.idle && t.total == s.total && t.inUse == s.inUse && t.providers == s.providers
    && t.drained == s.drained && t.lock == s.lock && |t.clients| == |s.clients|
  }

  /** While client i is inside, only its own moves touch the state that the mutex guards. */
  lemma OthersKeepGuarded(s: State, a: Action, i: nat)
    requires Locks(s) && Enabled(s, a) && i < |s.clients| && InSection(s.clients[i])
    requires !a.Client? || a.i != i
    ensures var t := Apply(s, a);
      SameGuarded(s, t) && s.closeLog <= t.closeLog && t.clients[i] == s.clients[i]
  {
    assert s.lock == HeldBy(i);
    if a.Client? { OthersEffect(s, a.i, a.move, i); }
  }

  lemma OthersEffect(s: State, h: nat, move: Move, i: nat)
    requires Locks(s) && h < |s.clients| && MoveEnabled(s, h, move)
    requires i < |s.clients| && InSection(s.clients[i]) && h != i
    ensures var e := MoveEffect(s, h, move);
      e.shelf == Leave && e.total == 0 && e.inUse == 0 && e.lock == s.lock
  {
    assert s.lock == HeldBy(i) && !InSection(s.clients[h]);
  }

  /** In any reachable state the critical section is atomic for the others. */
  lemma SectionIsAtomic(s: State, a: Action, i: nat)
    requires Reachable(s) && Enabled(s, a) && i < |s.clients| && InSection(s.clients[i])
    requires !a.Client? || a.i != i
    ensures SameGuarded(s, Apply(s, a)) && Apply(s, a).clients[i] == s.clients[i]
  {
    ReachableInv(s);
    OthersKeepGuarded(s, a, i);
  }

  lemma PoppingMove(s: State, i: nat, move: Move, k: Kind, st: seq<Entry>, n: nat)
    requires Popping(s, i, k, st, n) && Enabled(s, Client(i, move))
    requires InSection(Apply(s, Client(i, move)).clients[i])
    ensures Popping(Apply(s, Client(i, move)), i, k, st, if move.Pop? then n - 1 else n)
  {
    var t := Apply(s, Client(i, move));
    if move.Pop? {
      assert st[..n][..n - 1] == st[..n - 1];
    } else {
      assert move.PingFailed?;
      assert t.closeLog == s.closeLog + [st[n].browser];
      assert st[n].browser in t.closeLog;
    }
  }

  lemma {:induction false} PoppingRun(s: State, i: nat, acts: seq<Action>, k: Kind, st: seq<Entry>, n: nat)
    returns (m: nat)
    requires Inv(s) && CanRun(s, acts) && StaysInside(s, i, acts) && Popping(s, i, k, st, n)
    ensures Popping(Run(s, acts), i, k, st, m)
    decreases |acts|
  {
    if acts == [] {
      m := n;
    } else {
      var a := acts[0];
      var t := Apply(s, a);
      StepInv(s, a);
      m := n;
      if a.Client? && a.i == i {
        PoppingMove(s, i, a.move, k, st, n);
        if a.move.Pop? { m := n - 1; }
      } else {
        OthersKeepGuarded(s, a, i);
      }
      m := PoppingRun(t, i, acts[1..], k, st, m);
    }
  }

  lemma IdleIsOpen(s: State, k: Kind, j: nat)
    requires Owned(s) && j < |Stack(s.idle, k)|
    ensures Stack(s.idle, k)[j].browser !in s.closeLog
  {
    assert Idle(s, k, j, s.idle[k][j].browser);
    NotClosed(s, s.idle[k][j].browser);
  }

  /** What is idle or held is not closed. */
  lemma NotClosed(s: State, b: Browser)
    requires Owned(s) && ((exists k, j :: Idle(s, k, j, b)) || (exists i :: Held(s, i, b)))
    ensures b !in s.closeLog
  {
    assert Places(s, b) == if b < |s.created| then 1 else 0;
    OnePlaceAtMost(s, b);
    if b in s.closeLog {
      var l :| 0 <= l < |s.closeLog| && s.closeLog[l] == b;
      assert Closed(s, l, b);
    }
  }

  lemma LeftAlive(s: State, i: nat, k: Kind, st: seq<Entry>, n: nat, j: nat)
    requires Owned(s) && Popping(s, i, k, st, n) && s.clients[i].Pinging? && j <= n
    ensures st[j].browser !in s.closeLog
  {
    if j == n {
      assert Held(s, i, st[j].browser);
      NotClosed(s, st[j].browser);
    } else {
      assert Stack(s.idle, k)[j] == st[j];
      IdleIsOpen(s, k, j);
    }
  }

  lemma SectionStarts(s: State, i: nat)
    requires Enabled(s, Client(i, TakeLock))
    ensures var st := Stack(s.idle, s.clients[i].kind);
      Popping(Apply(s, Client(i, TakeLock)), i, s.clients[i].kind, st, |st|)
  {
    var st := Stack(s.idle, s.clients[i].kind);
    assert st[..|st|] == st;
  }

  lemma SectionEnds(u: State, i: nat, k: Kind, st: seq<Entry>, n: nat)
    requires Owned(u) && Popping(u, i, k, st, n) && Enabled(u, Client(i, PingOk))
    ensures n < |st| && Held(Apply(u, Client(i, PingOk)), i, st[n].browser)
    ensures forall j | 0 <= j < |st| :: st[j].browser in u.closeLog <==> j > n
  {
    forall j | 0 <= j < |st| ensures st[j].browser in u.closeLog <==> j > n {
      if j <= n { LeftAlive(u, i, k, st, n, j); }
    }
  }

  /** The stack is in the order of release, and none of it is closed. */
  lemma StackAtStart(s: State, k: Kind)
    requires Inv(s)
    ensures var st := Stack(s.idle, k);
      && Sorted(st, s.now) && forall j | 0 <= j < |st| :: st[j].browser !in s.closeLog
  {
    forall j | 0 <= j < |Stack(s.idle, k)| ensures Stack(s.idle, k)[j].browser !in s.closeLog { IdleIsOpen(s, k, j); }
  }

  /** Entry n is the last of the stack whose browser is not closed since, and no other such entry is newer. */
  ghost predicate NewestLeft(st: seq<Entry>, n: nat, before: seq<Browser>, log: seq<Browser>) {
    && n < |st|
    && (forall j | 0 <= j < |st| :: st[j].browser !in before)
    && (forall j | 0 <= j < |st| :: st[j].browser in log <==> j > n)
    && (forall j | 0 <= j < n :: st[j].lastUsed <= st[n].lastUsed)
  }

  /**
   Whatever the others do after client i takes the mutex, when its ping succeeds the
   browser that it gets is the last one of the stack it found that is not closed by
   then: every later one was closed on the way, and every earlier one was released
   before it.
   */
  lemma NewestTaken(s: State, i: nat, acts: seq<Action>)
    requires Reachable(s) && Enabled(s, Client(i, TakeLock))
    requires var t := Apply(s, Client(i, TakeLock)); CanRun(t, acts) && StaysInside(t, i, acts)
    requires Enabled(Run(Apply(s, Client(i, TakeLock)), acts), Client(i, PingOk))
    ensures var u := Run(Apply(s, Client(i, TakeLock)), acts);
      var st := Stack(s.idle, s.clients[i].kind);
      exists n: nat :: NewestLeft(st, n, s.closeLog, u.closeLog)
                  && Held(Apply(u, Client(i, PingOk)), i, st[n].browser)
  {
    var k := s.clients[i].kind;
    var st := Stack(s.idle, k);
    var t := Apply(s, Client(i, TakeLock));
    ReachableInv(s);
    StepInv(s, Client(i, TakeLock));
    SectionStarts(s, i);
    var n := PoppingRun(t, i, acts, k, st, |st|);
    RunInv(t, acts);
    SectionEnds(Run(t, acts), i, k, st, n);
    StackAtStart(s, k);
    assert NewestLeft(st, n, s.closeLog, Run(t, acts).closeLog);
  }
  /** Every browser of the stack was closed on the way. */
  predicate AllClosed(st: seq<Entry>, before: seq<Browser>, log: seq<Browser>) {
    forall j | 0 <= j < |st| :: st[j].browser !in before && st[j].browser in log
  }

  /**
   An Acquire creates a browser, or goes to wait, only after every idle browser of its
   type that it found has been closed on the way; it creates one only if there is room,
   and goes to wait only if there is none.
   */
  lemma NothingLeft(s: State, i: nat, acts: seq<Action>, move: Move)
    requires Reachable(s) && Enabled(s, Client(i, TakeLock)) && (move.Reserve? || move.GiveUp?)
    requires var t := Apply(s, Client(i, TakeLock)); CanRun(t, acts) && StaysInside(t, i, acts)
    requires Enabled(Run(Apply(s, Client(i, TakeLock)), acts), Client(i, move))
    ensures var u := Run(Apply(s, Client(i, TakeLock)), acts);
      && AllClosed(Stack(s.idle, s.clients[i].kind), s.closeLog, u.closeLog)
      && (s.clients[i].Queued? ==>
            s.clients[i].kind in s.providers && (move.Reserve? <==> u.total < u.maxInstances))
      && (s.clients[i].Waiting? ==> move.GiveUp?)
  {
    var k := s.clients[i].kind;
    var st := Stack(s.idle, k);
    var t := Apply(s, Client(i, TakeLock));
    ReachableInv(s);
    StepInv(s, Client(i, TakeLock));
    SectionStarts(s, i);
    var n := PoppingRun(t, i, acts, k, st, |st|);
    StaysTheSame(t, i, acts);
    StackAtStart(s, k);
  }

  /** Inside the section a client stays the same kind of call, and the providers stay as they are. */
  lemma {:induction false} StaysTheSame(s: State, i: nat, acts: seq<Action>)
    requires Inv(s) && CanRun(s, acts) && StaysInside(s, i, acts)
    ensures var u := Run(s, acts);
      && u.providers == s.providers && i < |u.clients|
      && InSection(u.clients[i]) && u.clients[i].polling == s.clients[i].polling
      && u.clients[i].kind == s.clients[i].kind
    decreases |acts|
  {
    if acts != [] {
      var a := acts[0];
      StepInv(s, a);
      if !a.Client? || a.i != i { OthersKeepGuarded(s, a, i); }
      StaysTheSame(Apply(s, a), i, acts[1..]);
    }
  }
}
