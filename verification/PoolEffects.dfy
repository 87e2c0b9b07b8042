/** Where the browsers are after one uninterrupted call of the pool. */
module PoolEffects {
  import opened PoolProtocol
  import opened PoolCounts
  import opened PoolInvariant
  import opened PoolTheorems
  import opened PoolCalls
  import opened PoolRounds
  import opened Options

  lemma OneStackEach(s: State, b: Browser)
    requires Inv(s)
    ensures Places(s, b) <= 1
    ensures forall k, j, k', j' :: Idle(s, k, j, b) && Idle(s, k', j', b) ==> k == k' && j == j'
    ensures forall i, j :: Held(s, i, b) && Held(s, j, b) ==> i == j
    ensures (exists i :: Held(s, i, b)) ==> b !in s.closeLog && forall k, j :: !Idle(s, k, j, b)
    ensures (exists k, j :: Idle(s, k, j, b)) ==> b !in s.closeLog && forall i :: !Held(s, i, b)
  {
    assert Places(s, b) == if b < |s.created| then 1 else 0;
    OnePlaceAtMost(s, b);
    OneSlotAtMost(s, b);
    if b in s.closeLog {
      var l :| 0 <= l < |s.closeLog| && s.closeLog[l] == b;
      assert Closed(s, l, b);
    }
  }

  ghost predicate IsIdle(s: State, b: Browser) {
    exists k, j :: Idle(s, k, j, b)
  }

  // ---- Release ----

  /** The top of the stack of its kind is where a browser goes back to. */
  predicate OnTop(idle: map<Kind, seq<Entry>>, k: Kind, e: Entry) {
    Stack(idle, k) != [] && Stack(idle, k)[|Stack(idle, k)| - 1] == e
  }

  /** c is idle in both states at the same places, and closed in both or in neither. */
  ghost predicate SamePlaces(s: State, t: State, c: Browser) {
    && (c in t.closeLog <==> c in s.closeLog)
    && forall k, j :: Idle(t, k, j, c) <==> Idle(s, k, j, c)
  }

  /**
   What a Release does with its browser: closed if the pool is closed or the error was a
   connection error, else back on top of the stack of its kind; total falls by one
   exactly for a connection error in an open pool. No other browser changes place.
   */
  lemma ReleaseEffect(s: State, i: nat, broken: bool)
    requires Reachable(s) && i < |s.clients| && s.clients[i].Holding?
    ensures var b := s.clients[i].browser; var t := ReleaseCall(s, i, broken);
      && b < |s.created|
      && (b in t.closeLog <==> s.closed || broken)
      && (IsIdle(t, b) <==> !s.closed && !broken)
      && (!s.closed && !broken ==> OnTop(t.idle, s.created[b], Entry(b, s.now)))
      && forall c | c != b :: SamePlaces(s, t, c)
    ensures var t := ReleaseCall(s, i, broken);
      && t.total == s.total - (if !s.closed && broken then 1 else 0)
      && t.inUse == s.inUse - (if s.closed then 0 else 1)
      && t.clients == s.clients[i := Outside]
  {
    HeldBefore(s, i);
    if s.closed || broken {
      ClosedByRelease(s, i, broken);
      SameIdle(s, ReleaseCall(s, i, broken), s.clients[i].browser);
    } else {
      PutBackByRelease(s, i);
    }
  }

  lemma HeldBefore(s: State, i: nat)
    requires Reachable(s) && i < |s.clients| && s.clients[i].Holding?
    ensures var b := s.clients[i].browser;
      && b < |s.created| && b !in s.closeLog
      && !IsIdle(s, b)
  {
    ReachableInv(s);
    assert KindOk(s, s.clients[i]);
    assert Held(s, i, s.clients[i].browser);
    OneStackEach(s, s.clients[i].browser);
  }

  lemma SameIdle(s: State, t: State, b: Browser)
    requires t.idle == s.idle && !IsIdle(s, b)
    ensures !IsIdle(t, b)
  {
    forall k, j ensures !Idle(t, k, j, b) { assert !Idle(s, k, j, b); }
  }

  lemma ClosedByRelease(s: State, i: nat, broken: bool)
    requires i < |s.clients| && s.clients[i].Holding? && (s.closed || broken)
    ensures var b := s.clients[i].browser; var t := ReleaseCall(s, i, broken);
      && b in t.closeLog && t.idle == s.idle
      && forall c | c != b :: SamePlaces(s, t, c)
  {
    var b, t := s.clients[i].browser, ReleaseCall(s, i, broken);
    assert t.closeLog == s.closeLog + [b];
    forall c | c != b ensures SamePlaces(s, t, c) {
      forall k, j ensures Idle(t, k, j, c) <==> Idle(s, k, j, c) { }
    }
  }

  lemma PutBackByRelease(s: State, i: nat)
    requires i < |s.clients| && s.clients[i].Holding? && !s.closed && s.clients[i].browser < |s.created|
    ensures var b := s.clients[i].browser; var t := ReleaseCall(s, i, false);
      && t.closeLog == s.closeLog && OnTop(t.idle, s.created[b], Entry(b, s.now))
      && IsIdle(t, b) && forall c | c != b :: SamePlaces(s, t, c)
  {
    var b, t := s.clients[i].browser, ReleaseCall(s, i, false);
    var k := s.created[b];
    assert Stack(t.idle, k) == Stack(s.idle, k) + [Entry(b, s.now)];
    assert Idle(t, k, |Stack(s.idle, k)|, b);
    forall c, k', j | c != b ensures Idle(t, k', j, c) <==> Idle(s, k', j, c) { PushedElsewhere(s, t, k, b, k', j, c); }
  }

  lemma PushedElsewhere(s: State, t: State, k: Kind, b: Browser, k': Kind, j: int, c: Browser)
    requires t.idle == s.idle[k := Stack(s.idle, k) + [Entry(b, s.now)]] && c != b
    ensures Idle(t, k', j, c) <==> Idle(s, k', j, c)
  {
    var st := Stack(s.idle, k);
    if k' == k && 0 <= j <= |st| { assert (st + [Entry(b, s.now)])[j] == if j < |st| then st[j] else Entry(b, s.now); }
  }

  // ---- Acquire ----

  /** Some entry of the stack answers the ping. */
  ghost predicate Answered(st: seq<Entry>, alive: set<Browser>) {
    exists e :: e in st && e.browser in alive
  }

  lemma AliveIff(st: seq<Entry>, alive: set<Browser>)
    ensures LastAlive(st, alive) > 0 <==> Answered(st, alive)
  {
    var n := LastAlive(st, alive);
    if n > 0 { assert st[n - 1] in st; }
  }

  /** Exactly when an Acquire ends in which way. */
  lemma AcquireEnds(u: Setup, f: Fields, k: Kind, alive: set<Browser>, creates: bool)
    ensures var o := AcquireOutcome(u, f, k, alive, creates);
      var st := Stack(f.idle, k);
      var served := !u.closed && k in u.providers;
      var room := f.total - |st| < u.maxInstances;   // once the dead ones are gone
      && (o == PoolClosed <==> u.closed)
      && (o == NotFound <==> !u.closed && k !in u.providers)
      && (o.Reuse? <==> served && Answered(st, alive))
      && (o == MustWait <==> served && !Answered(st, alive) && !room)
      && (o == CreateFails <==> served && !Answered(st, alive) && room && !creates)
      && (o == New(|f.created|) <==> served && !Answered(st, alive) && room && creates)
      && (o.New? ==> o.browser == |f.created|)
  {
    AliveIff(Stack(f.idle, k), alive);
  }

  /** Some later entry of the stack answers. */
  ghost predicate LaterAnswers(st: seq<Entry>, alive: set<Browser>, j: int) {
    exists m :: 0 <= m < |st| && j < m && st[m].browser in alive
  }

  lemma LaterIff(st: seq<Entry>, alive: set<Browser>, j: nat)
    requires j < |st|
    ensures LaterAnswers(st, alive, j) <==> j + 1 < LastAlive(st, alive)
    ensures !LaterAnswers(st, alive, j) && st[j].browser in alive <==> j + 1 == LastAlive(st, alive)
  {
    var n := LastAlive(st, alive);
    if j + 1 < n { assert st[n - 1].browser in alive; }
  }

  /** The stacks and the log after an Acquire, by how many entries are left alive. */
  lemma AcquireStacks(f: Fields, u: Setup, k: Kind, alive: set<Browser>, creates: bool)
    requires !u.closed && k in u.providers
    ensures var o := AcquireOutcome(u, f, k, alive, creates);
      var g := AcquireFields(f, k, alive, o);
      var st := Stack(f.idle, k); var n := LastAlive(st, alive);
      && Stack(g.idle, k) == st[..if n > 0 then n - 1 else 0]
      && (forall k' | k' != k :: Stack(g.idle, k') == Stack(f.idle, k'))
      && g.closeLog == f.closeLog + Popped(st, n)
      && g.total == f.total - (|st| - n) + (if o.New? then 1 else 0)
      && g.inUse == f.inUse + (if o.New? || o.Reuse? then 1 else 0)
      && g.created == f.created + (if o.New? then [k] else [])
  {
    var st := Stack(f.idle, k);
    var n := LastAlive(st, alive);
    if n > 0 { assert st[..n][..n - 1] == st[..n - 1]; }
    if n == |st| { assert Popped(st, n) == [] && st[..n] == st; }
  }

  lemma PoppedIff(st: seq<Entry>, n: nat, b: Browser)
    requires n <= |st|
    ensures b in Popped(st, n) <==> exists j :: n <= j < |st| && st[j].browser == b
  {
    var r := Popped(st, n);
    forall j | n <= j < |st| ensures st[j].browser in r { assert r[|st| - 1 - j] == st[j].browser; }
  }

  /**
   What an Acquire that finds the pool open and a provider does with the entries of its
   stack, whatever its end: an entry stays if a later one answers; the last one that
   answers goes to the client; and those that do not and come after it are closed.
   */
  lemma AcquireEffect(s: State, i: nat, k: Kind, alive: set<Browser>, creates: bool, j: nat)
    requires Reachable(s) && i < |s.clients| && !s.closed && k in s.providers && j < |Stack(s.idle, k)|
    ensures var st := Stack(s.idle, k); var b := st[j].browser;
      var t := AcquireCall(s, i, k, alive, creates);
      && (j < |Stack(t.idle, k)| <==> LaterAnswers(st, alive, j))
      && (j < |Stack(t.idle, k)| ==> Stack(t.idle, k)[j] == st[j])
      && (t.clients[i] == Holding(k, b) <==> b in alive && !LaterAnswers(st, alive, j))
      && (b in t.closeLog <==> b !in alive && !LaterAnswers(st, alive, j))
  {
    var st := Stack(s.idle, k);
    LaterIff(st, alive, j);
    IdleBefore(s, k, j);
    AcquireStacks(FieldsOf(s), SetupOf(s), k, alive, creates);
    AcquireHolds(s, i, k, alive, creates, j);
    PoppedIff(st, LastAlive(st, alive), st[j].browser);
  }

  /** An idle browser was created, is not closed, and is in one entry only. */
  lemma IdleBefore(s: State, k: Kind, j: nat)
    requires Reachable(s) && j < |Stack(s.idle, k)|
    ensures var st := Stack(s.idle, k);
      && st[j].browser < |s.created| && st[j].browser !in s.closeLog
      && forall m | 0 <= m < |st| && st[m].browser == st[j].browser :: m == j
  {
    var st := Stack(s.idle, k);
    ReachableInv(s);
    assert Idle(s, k, j, st[j].browser);
    OneStackEach(s, st[j].browser);
    SomePlaceCounts(s, st[j].browser);
    forall m | 0 <= m < |st| && st[m].browser == st[j].browser ensures m == j {
      assert Idle(s, k, m, st[j].browser);
    }
  }

  lemma AcquireHolds(s: State, i: nat, k: Kind, alive: set<Browser>, creates: bool, j: nat)
    requires i < |s.clients| && !s.closed && k in s.providers && j < |Stack(s.idle, k)|
    requires var st := Stack(s.idle, k);
      && st[j].browser < |s.created|
      && forall m | 0 <= m < |st| && st[m].browser == st[j].browser :: m == j
    ensures AcquireCall(s, i, k, alive, creates).clients[i] == Holding(k, Stack(s.idle, k)[j].browser)
       <==> j + 1 == LastAlive(Stack(s.idle, k), alive)
  {
  }

  /** And with the rest: the other stacks, and the numbers. */
  lemma AcquireRest(s: State, i: nat, k: Kind, alive: set<Browser>, creates: bool)
    requires i < |s.clients| && !s.closed
    ensures var t := AcquireCall(s, i, k, alive, creates);
      && (forall k' | k' != k || k !in s.providers :: Stack(t.idle, k') == Stack(s.idle, k'))
      && t.total == s.total - (|t.closeLog| - |s.closeLog|) + (|t.created| - |s.created|)
      && t.inUse == s.inUse + (if t.clients[i].Holding? then 1 else 0)
      && s.closeLog <= t.closeLog
  {
    if k in s.providers { AcquireStacks(FieldsOf(s), SetupOf(s), k, alive, creates); }
  }

  // ---- waitForInstance ----

  lemma {:induction false} NothingToFind(f: Fields, k: Kind, polls: seq<set<Browser>>)
    requires Stack(f.idle, k) == []
    ensures WaitFound(f, k, polls) == None && WaitFields(f, k, polls) == Raises(f, WaitsEnded)
    decreases |polls|
  {
    if polls != [] { NothingToFind(f, k, polls[1..]); }
  }

  /**
   Exactly when a wait that nobody interrupts finds a browser: if the context lets it
   poll at all and an idle one answers the first poll, since that poll closes all others.
   */
  lemma WaitEnds(f: Fields, k: Kind, polls: seq<set<Browser>>)
    ensures var st := Stack(f.idle, k);
      var r := WaitFound(f, k, polls);
      && (r.Some? <==> polls != [] && Answered(st, polls[0]))
      && (r.Some? ==> exists j | 0 <= j < |st| ::
            st[j].browser == r.value && r.value in polls[0] && !LaterAnswers(st, polls[0], j))
      && (r.None? && polls != [] ==>
            && Stack(WaitFields(f, k, polls).idle, k) == []
            && WaitFields(f, k, polls).closeLog == f.closeLog + Popped(st, 0)
            && WaitFields(f, k, polls).total == f.total - |st|)
  {
    if polls != [] {
      var st := Stack(f.idle, k);
      AliveIff(st, polls[0]);
      if LastAlive(st, polls[0]) > 0 {
        LaterIff(st, polls[0], LastAlive(st, polls[0]) - 1);
      } else {
        NothingToFind(PollFields(f, k, polls[0]), k, polls[1..]);
        if st == [] { assert Popped(st, 0) == []; }
      }
    }
  }
}
