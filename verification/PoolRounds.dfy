/**
What one uninterrupted waitForInstance does to the pool, and one Acquire with the
Release of what it returned; each is a run of the step system.
*/
module PoolRounds {
  import opened PoolProtocol
  import opened PoolTheorems
  import opened PoolCalls
  import opened Options

  // ---- waitForInstance ----

  /** One poll: the pop loop under the mutex. */
  function PollFields(f: Fields, k: Kind, alive: set<Browser>): Fields {
    var n := LastAlive(Stack(f.idle, k), alive);
    var d := Shed(f, k, n);
    if n > 0 then Raises(TakeTopOf(d, k), WaitsEnded) else d
  }

  function Polled(s: State, k: Kind, alive: set<Browser>): Phase {
    var st := Stack(s.idle, k);
    var n := LastAlive(st, alive);
    if n > 0 then Holding(k, st[n - 1].browser) else Waiting(k)
  }

  function PollCall(s: State, i: nat, k: Kind, alive: set<Browser>): State
    requires i < |s.clients|
  {
    At(With(s, PollFields(FieldsOf(s), k, alive)), i, Polled(s, k, alive))
  }

  /** The context has ended. */
  function TimeOutCall(s: State, i: nat): State
    requires i < |s.clients|
  {
    At(With(s, Raises(FieldsOf(s), WaitsEnded)), i, Outside)
  }

  /** Polls until one finds a browser or the context ends; polls[j] are the browsers that answer at poll j. */
  function WaitFields(f: Fields, k: Kind, polls: seq<set<Browser>>): Fields
    decreases |polls|
  {
    if polls == [] then Raises(f, WaitsEnded)
    else
      var g := PollFields(f, k, polls[0]);
      if LastAlive(Stack(f.idle, k), polls[0]) > 0 then g else WaitFields(g, k, polls[1..])
  }

  /** The browser that the first successful poll finds. */
  function WaitFound(f: Fields, k: Kind, polls: seq<set<Browser>>): Option<Browser>
    decreases |polls|
  {
    if polls == [] then None
    else
      var st := Stack(f.idle, k);
      var n := LastAlive(st, polls[0]);
      if n > 0 then Some(st[n - 1].browser) else WaitFound(PollFields(f, k, polls[0]), k, polls[1..])
  }

  function Got(k: Kind, r: Option<Browser>): Phase {
    if r.Some? then Holding(k, r.value) else Outside
  }

  function WaitCall(s: State, i: nat, k: Kind, polls: seq<set<Browser>>): State
    requires i < |s.clients|
  {
    At(With(s, WaitFields(FieldsOf(s), k, polls)), i, Got(k, WaitFound(FieldsOf(s), k, polls)))
  }

  lemma WaitOn(s: State, i: nat, k: Kind, polls: seq<set<Browser>>)
    requires i < |s.clients| && polls != []
    ensures var t := PollCall(s, i, k, polls[0]);
      WaitCall(s, i, k, polls) == if t.clients[i].Holding? then t else WaitCall(t, i, k, polls[1..])
  {
    var t := PollCall(s, i, k, polls[0]);
    assert FieldsOf(t) == PollFields(FieldsOf(s), k, polls[0]);
    if !t.clients[i].Holding? {
      assert WaitCall(t, i, k, polls[1..]).clients == WaitCall(s, i, k, polls).clients;
    }
  }

  lemma PollTakes(s: State, d: State, i: nat, k: Kind)
    requires !s.crashed && i < |s.clients| && d == At(s, i, Looping(k, true)).(lock := HeldBy(i))
    requires s.lock.Free? && Stack(s.idle, k) != []
    ensures Leads(d, At(With(s, Raises(TakeTopOf(FieldsOf(s), k), WaitsEnded)), i, Holding(k, TopOf(s, k))))
  {
    var b := TopOf(s, k);
    PopLeads(d, i, k, true);
    var t := At(d, i, Pinging(k, true, b)).(idle := WithoutTop(d, k));
    PollOkLeads(t, i);
    assert t.clients[i := Holding(k, b)] == s.clients[i := Holding(k, b)];
    LeadsTrans(d, t, At(With(s, Raises(TakeTopOf(FieldsOf(s), k), WaitsEnded)), i, Holding(k, b)));
  }

  lemma PollFindsNone(s: State, d: State, i: nat, k: Kind)
    requires !s.crashed && i < |s.clients| && d == At(s, i, Looping(k, true)).(lock := HeldBy(i))
    requires s.lock.Free? && Stack(s.idle, k) == []
    ensures Leads(d, At(s, i, Waiting(k)))
  {
    GiveUpLeads(d, i);
    assert d.clients[i := Waiting(k)] == s.clients[i := Waiting(k)];
  }

  lemma PollTook(s: State, f: State, i: nat, k: Kind, alive: set<Browser>)
    requires i < |s.clients| && LastAlive(Stack(s.idle, k), alive) > 0
    requires f == Discard(s, k, LastAlive(Stack(s.idle, k), alive))
    ensures f.lock == s.lock && f.crashed == s.crashed && |f.clients| == |s.clients| && Stack(f.idle, k) != []
    ensures PollCall(s, i, k, alive)
         == At(With(f, Raises(TakeTopOf(FieldsOf(f), k), WaitsEnded)), i, Holding(k, TopOf(f, k)))
  {
    var n := LastAlive(Stack(s.idle, k), alive);
    assert Stack(f.idle, k) == Stack(s.idle, k)[..n];
    assert FieldsOf(f) == Shed(FieldsOf(s), k, n);
  }

  /** The poll from the end of its pop loop on. */
  lemma PollEnds(s: State, f: State, d: State, i: nat, k: Kind, alive: set<Browser>)
    requires !s.crashed && s.lock.Free? && i < |s.clients|
    requires f == Discard(s, k, LastAlive(Stack(s.idle, k), alive))
    requires d == At(f, i, Looping(k, true)).(lock := HeldBy(i))
    ensures Leads(d, PollCall(s, i, k, alive))
  {
    if LastAlive(Stack(s.idle, k), alive) > 0 {
      PollTook(s, f, i, k, alive);
      PollTakes(f, d, i, k);
    } else {
      PollFindsNone(f, d, i, k);
    }
  }

  lemma PollCallLeads(s: State, i: nat, k: Kind, alive: set<Browser>)
    requires !s.crashed && s.lock.Free? && i < |s.clients| && s.clients[i] == Waiting(k)
    ensures Leads(s, PollCall(s, i, k, alive))
  {
    var n := LastAlive(Stack(s.idle, k), alive);
    var e := At(s, i, Looping(k, true)).(lock := HeldBy(i));
    LockLeads(s, i);
    var d := Discard(e, k, n);
    DiscardLeads(e, i, k, true, n);
    LeadsTrans(s, e, d);
    PollEnds(s, Discard(s, k, n), d, i, k, alive);
    LeadsTrans(s, d, PollCall(s, i, k, alive));
  }

  lemma TimeOutLeads(s: State, i: nat)
    requires !s.crashed && i < |s.clients| && s.clients[i].Waiting?
    ensures Leads(s, TimeOutCall(s, i))
  {
    LeadsBy(s, Client(i, TimeOut));
  }

  /** A waitForInstance that nobody interrupts is a run of the step system. */
  lemma {:induction false} WaitCallLeads(s: State, i: nat, k: Kind, polls: seq<set<Browser>>)
    requires !s.crashed && s.lock.Free? && i < |s.clients| && s.clients[i] == Waiting(k)
    ensures Leads(s, WaitCall(s, i, k, polls))
    decreases |polls|
  {
    if polls == [] {
      TimeOutLeads(s, i);
    } else {
      var t := PollCall(s, i, k, polls[0]);
      WaitOn(s, i, k, polls);
      PollCallLeads(s, i, k, polls[0]);
      if !t.clients[i].Holding? {
        WaitCallLeads(t, i, k, polls[1..]);
        LeadsTrans(s, t, WaitCall(t, i, k, polls[1..]));
      }
    }
  }

  /** Of the idle browsers that answer a ping, a poll takes the one released last. */
  lemma PollIsNewestAlive(s: State, i: nat, k: Kind, alive: set<Browser>, e: Entry)
    requires Reachable(s) && i < |s.clients| && e in Stack(s.idle, k) && e.browser in alive
    ensures var t := PollCall(s, i, k, alive);
      t.clients[i].Holding?
      && exists newest :: newest in Stack(s.idle, k) && newest.browser == t.clients[i].browser
                          && e.lastUsed <= newest.lastUsed
  {
    ReuseIsNewestAlive(s, k, alive, e);
    var st := Stack(s.idle, k);
    assert st[LastAlive(st, alive) - 1] in st;
  }

  // ---- Acquire, then Release ----

  /** What the world answers between the start of an Acquire and the end of its Release. */
  datatype Round = Round(alive: set<Browser>, creates: bool, polls: seq<set<Browser>>, broken: bool, time: int)

  /** The browser that an Acquire returns, with the wait that it may end in. */
  function Acquired(u: Setup, f: Fields, k: Kind, r: Round): Option<Browser> {
    var o := AcquireOutcome(u, f, k, r.alive, r.creates);
    match o
    case Reuse(b) => Some(b)
    case New(b) => Some(b)
    case MustWait => WaitFound(AcquireFields(f, k, r.alive, o), k, r.polls)
    case _ => None
  }

  function AcquireWait(u: Setup, f: Fields, k: Kind, r: Round): Fields {
    var o := AcquireOutcome(u, f, k, r.alive, r.creates);
    var g := AcquireFields(f, k, r.alive, o);
    if o.MustWait? then WaitFields(g, k, r.polls) else g
  }

  /** And the Release of the browser, if there is one. */
  function RoundFields(u: Setup, f: Fields, k: Kind, r: Round): Fields {
    var g := AcquireWait(u, f, k, r);
    var got := Acquired(u, f, k, r);
    if got.Some? then ReleaseFields(g, got.value, u.closed, r.broken, r.time) else g
  }

  lemma {:induction false} WaitInUse(f: Fields, k: Kind, polls: seq<set<Browser>>)
    ensures WaitFields(f, k, polls).inUse == f.inUse + (if WaitFound(f, k, polls).Some? then 1 else 0)
    decreases |polls|
  {
    if polls != [] { WaitInUse(PollFields(f, k, polls[0]), k, polls[1..]); }
  }

  /** A browser that was handed out is counted in use, and nothing else is. */
  lemma AcquireInUse(u: Setup, f: Fields, k: Kind, r: Round)
    ensures AcquireWait(u, f, k, r).inUse == f.inUse + (if Acquired(u, f, k, r).Some? then 1 else 0)
    ensures u.closed ==> Acquired(u, f, k, r).None?
  {
    var o := AcquireOutcome(u, f, k, r.alive, r.creates);
    if o.MustWait? { WaitInUse(AcquireFields(f, k, r.alive, o), k, r.polls); }
  }

  lemma ReleaseInUse(f: Fields, b: Browser, broken: bool, now: int)
    ensures ReleaseFields(f, b, false, broken, now).inUse == f.inUse - 1
  {
  }

  /** After the Release, inUse is what it was before the Acquire. */
  lemma RoundInUse(u: Setup, f: Fields, k: Kind, r: Round)
    ensures RoundFields(u, f, k, r).inUse == f.inUse
  {
    AcquireInUse(u, f, k, r);
    var got := Acquired(u, f, k, r);
    if got.Some? { ReleaseInUse(AcquireWait(u, f, k, r), got.value, r.broken, r.time); }
  }

  // ---- as a run ----

  /** The pool with client i having what Acquire returned. */
  function AcquireWaitCall(s: State, i: nat, k: Kind, r: Round): State
    requires i < |s.clients|
  {
    var u, f := SetupOf(s), FieldsOf(s);
    At(With(s, AcquireWait(u, f, k, r)), i, Got(k, Acquired(u, f, k, r)))
  }

  lemma AcquireThenWait(s: State, i: nat, k: Kind, r: Round)
    requires i < |s.clients| && s.clients[i].Outside?
    ensures var t := AcquireCall(s, i, k, r.alive, r.creates);
      var o := AcquireOutcome(SetupOf(s), FieldsOf(s), k, r.alive, r.creates);
      && |t.clients| == |s.clients| && t.crashed == s.crashed && t.lock == s.lock
      && (o.MustWait? ==> t.clients[i] == Waiting(k))
      && AcquireWaitCall(s, i, k, r) == if o.MustWait? then WaitCall(t, i, k, r.polls) else t
  {
    var t := AcquireCall(s, i, k, r.alive, r.creates);
    var o := AcquireOutcome(SetupOf(s), FieldsOf(s), k, r.alive, r.creates);
    assert o.PoolClosed? ==> s.clients[i := Outside] == s.clients;
    if o.MustWait? {
      assert FieldsOf(t) == AcquireFields(FieldsOf(s), k, r.alive, o);
      assert WaitCall(t, i, k, r.polls).clients == AcquireWaitCall(s, i, k, r).clients;
    }
  }

  lemma AcquireWaitLeads(s: State, i: nat, k: Kind, r: Round)
    requires !s.crashed && s.lock.Free? && i < |s.clients| && s.clients[i].Outside?
    ensures Leads(s, AcquireWaitCall(s, i, k, r))
  {
    var t := AcquireCall(s, i, k, r.alive, r.creates);
    AcquireCallLeads(s, i, k, r.alive, r.creates);
    AcquireThenWait(s, i, k, r);
    if AcquireOutcome(SetupOf(s), FieldsOf(s), k, r.alive, r.creates).MustWait? {
      WaitCallLeads(t, i, k, r.polls);
      LeadsTrans(s, t, WaitCall(t, i, k, r.polls));
    }
  }

  lemma ThenRelease(s: State, i: nat, k: Kind, r: Round)
    requires i < |s.clients| && s.clients[i].Outside? && s.now == r.time
    ensures var t := AcquireWaitCall(s, i, k, r);
      With(s, RoundFields(SetupOf(s), FieldsOf(s), k, r))
      == if t.clients[i].Holding? then ReleaseCall(t, i, r.broken) else t
  {
    var t := AcquireWaitCall(s, i, k, r);
    assert FieldsOf(t) == AcquireWait(SetupOf(s), FieldsOf(s), k, r);
    assert t.clients[i := Outside] == s.clients;
  }

  /**
   An Acquire and its Release that nobody interrupts are a run of the step system, at
   the end of which the client is outside again.
   */
  lemma RoundLeads(s: State, i: nat, k: Kind, r: Round)
    requires !s.crashed && s.lock.Free? && i < |s.clients| && s.clients[i].Outside? && (s.drained ==> s.closed)
    requires s.now == r.time
    ensures Leads(s, With(s, RoundFields(SetupOf(s), FieldsOf(s), k, r)))
  {
    var t := AcquireWaitCall(s, i, k, r);
    AcquireWaitLeads(s, i, k, r);
    ThenRelease(s, i, k, r);
    if t.clients[i].Holding? {
      ReleaseCallLeads(t, i, r.broken);
      LeadsTrans(s, t, ReleaseCall(t, i, r.broken));
    }
  }
}
