/**
What one uninterrupted call of Acquire, Release, evictIdle or Close does to the
pool, and the proof that each such call is a run of the step system.
*/
module PoolCalls {
  import opened PoolProtocol
  import opened PoolCounts
  import opened PoolInvariant
  import opened PoolTheorems

  /**
   How many entries of a stack are left when the pop loop stops: it discards from
   the end until an entry answers the ping. That entry is then the last one left.
   */
  function LastAlive(st: seq<Entry>, alive: set<Browser>): (n: nat)
    ensures n <= |st|
    ensures n > 0 ==> st[n - 1].browser in alive
    ensures forall j | n <= j < |st| :: st[j].browser !in alive
  {
    if st == [] then 0
    else if st[|st| - 1].browser in alive then |st|
    else LastAlive(st[..|st| - 1], alive)
  }

  /** The browsers of the entries from n on, last one first: the order in which they are popped. */
  function Popped(st: seq<Entry>, n: nat): (r: seq<Browser>)
    requires n <= |st|
    ensures |r| == |st| - n
    ensures forall j | 0 <= j < |r| :: r[j] == st[|st| - 1 - j].browser
    decreases |st|
  {
    if n == |st| then [] else [st[|st| - 1].browser] + Popped(st[..|st| - 1], n)
  }

  /** The fields of the pool that calls of Acquire and Release change, with the browsers made and closed. */
  datatype Fields = Fields(
    idle: map<Kind, seq<Entry>>, total: int, inUse: int, counts: map<Tally, nat>,
    created: seq<Kind>, closeLog: seq<Browser>)

  function FieldsOf(s: State): Fields {
    Fields(s.idle, s.total, s.inUse, s.counts, s.created, s.closeLog)
  }

  function With(s: State, f: Fields): State {
    s.(idle := f.idle, total := f.total, inUse := f.inUse, counts := f.counts,
       created := f.created, closeLog := f.closeLog)
  }

  /** All entries of kind k from n on discarded. */
  function Shed(f: Fields, k: Kind, n: nat): Fields
    requires n <= |Stack(f.idle, k)|
  {
    var st := Stack(f.idle, k);
    if n == |st| then f
    else f.(idle := f.idle[k := st[..n]],
            total := f.total - (|st| - n),
            counts := Raise(f.counts, EvictTotal, |st| - n),
            closeLog := f.closeLog + Popped(st, n))
  }

  /** The top entry of kind k taken into use. */
  function TakeTopOf(f: Fields, k: Kind): Fields
    requires Stack(f.idle, k) != []
  {
    var st := Stack(f.idle, k);
    f.(idle := f.idle[k := st[..|st| - 1]], inUse := f.inUse + 1)
  }

  function AddNew(f: Fields, k: Kind): Fields {
    f.(total := f.total + 1, inUse := f.inUse + 1, created := f.created + [k])
  }

  function Raises(f: Fields, x: Tally): Fields {
    f.(counts := Raise(f.counts, x, 1))
  }

  /** The pool after the pop loop for kind k has discarded all entries from n on. */
  function Discard(s: State, k: Kind, n: nat): State
    requires n <= |Stack(s.idle, k)|
  {
    With(s, Shed(FieldsOf(s), k, n))
  }

  function At(s: State, i: nat, p: Phase): State
    requires i < |s.clients|
  {
    s.(clients := s.clients[i := p])
  }

  /** Client i inside the critical section of Acquire. */
  function Entered(s: State, i: nat, k: Kind): State
    requires i < |s.clients|
  {
    At(s, i, Looping(k, false)).(lock := HeldBy(i), counts := Raise(s.counts, AcquireTotal, 1))
  }

  // ---- runs ----

  lemma {:induction false} RunConcat(s: State, a: seq<Action>, b: seq<Action>)
    requires CanRun(s, a) && CanRun(Run(s, a), b)
    ensures CanRun(s, a + b) && Run(s, a + b) == Run(Run(s, a), b)
    decreases |a|
  {
    var all := a + b;
    if a == [] {
      assert all == b;
    } else {
      var t, rest := Apply(s, a[0]), a[1..];
      assert all[0] == a[0] && all[1..] == rest + b;
      RunConcat(t, rest, b);
      assert CanRun(s, all);
    }
  }

  /** Some run leads from s to t. */
  ghost predicate Leads(s: State, t: State) {
    exists acts :: CanRun(s, acts) && Run(s, acts) == t
  }

  lemma LeadsTrans(s: State, t: State, u: State)
    requires Leads(s, t) && Leads(t, u)
    ensures Leads(s, u)
  {
    var a :| CanRun(s, a) && Run(s, a) == t;
    var b :| CanRun(t, b) && Run(t, b) == u;
    RunConcat(s, a, b);
  }

  lemma LeadsBy(s: State, a: Action)
    requires Enabled(s, a)
    ensures Leads(s, Apply(s, a))
  {
    CanRunAfter(s, a, []);
  }

  lemma LeadsSelf(s: State)
    ensures Leads(s, s)
  {
    assert CanRun(s, []) && Run(s, []) == s;
  }

  // ---- single moves ----

  lemma BeginLeads(s: State, i: nat, k: Kind)
    requires !s.crashed && !s.closed && i < |s.clients| && s.clients[i].Outside?
    ensures Leads(s, At(s, i, Admitted(k)))
  {
    LeadsBy(s, Client(i, BeginAcquire(k)));
  }

  lemma CountAcquireLeads(s: State, i: nat)
    requires !s.crashed && i < |s.clients| && s.clients[i].Admitted?
    ensures Leads(s, At(s, i, Queued(s.clients[i].kind)).(counts := Raise(s.counts, AcquireTotal, 1)))
  {
    LeadsBy(s, Client(i, CountAcquire));
  }

  lemma LockLeads(s: State, i: nat)
    requires !s.crashed && s.lock.Free? && i < |s.clients| && (s.clients[i].Queued? || s.clients[i].Waiting?)
    ensures Leads(s, At(s, i, Looping(s.clients[i].kind, s.clients[i].Waiting?)).(lock := HeldBy(i)))
  {
    LeadsBy(s, Client(i, TakeLock));
  }

  /** The browser on top of the stack that client i looks at. */
  function TopOf(s: State, k: Kind): Browser
    requires Stack(s.idle, k) != []
  {
    Stack(s.idle, k)[|Stack(s.idle, k)| - 1].browser
  }

  function WithoutTop(s: State, k: Kind): map<Kind, seq<Entry>>
    requires Stack(s.idle, k) != []
  {
    s.idle[k := Stack(s.idle, k)[..|Stack(s.idle, k)| - 1]]
  }

  lemma PopLeads(s: State, i: nat, k: Kind, polling: bool)
    requires !s.crashed && i < |s.clients| && s.clients[i] == Looping(k, polling)
    requires polling || k in s.providers
    requires Stack(s.idle, k) != []
    ensures Leads(s, At(s, i, Pinging(k, polling, TopOf(s, k))).(idle := WithoutTop(s, k)))
  {
    LeadsBy(s, Client(i, Pop));
  }

  lemma PingOkLeads(s: State, i: nat)
    requires !s.crashed && i < |s.clients| && s.clients[i].Pinging? && !s.clients[i].polling
    ensures Leads(s, At(s, i, Reused(s.clients[i].kind, s.clients[i].browser)).(lock := Free, inUse := s.inUse + 1))
  {
    LeadsBy(s, Client(i, PingOk));
  }

  lemma PollOkLeads(s: State, i: nat)
    requires !s.crashed && i < |s.clients| && s.clients[i].Pinging? && s.clients[i].polling
    ensures Leads(s, At(s, i, Holding(s.clients[i].kind, s.clients[i].browser))
                     .(lock := Free, inUse := s.inUse + 1, counts := Raise(s.counts, WaitsEnded, 1)))
  {
    LeadsBy(s, Client(i, PingOk));
  }

  lemma PingFailedLeads(s: State, i: nat)
    requires !s.crashed && i < |s.clients| && s.clients[i].Pinging?
    ensures var p := s.clients[i];
      Leads(s, At(s, i, Looping(p.kind, p.polling))
               .(total := s.total - 1, counts := Raise(s.counts, EvictTotal, 1), closeLog := s.closeLog + [p.browser]))
  {
    LeadsBy(s, Client(i, PingFailed));
  }

  lemma ReserveLeads(s: State, i: nat)
    requires MayReserve(s, i)
    ensures Leads(s, At(s, i, Creating(s.clients[i].kind)).(lock := Free, total := s.total + 1, inUse := s.inUse + 1))
  {
    LeadsBy(s, Client(i, Reserve));
  }

  lemma CreateOkLeads(s: State, i: nat)
    requires !s.crashed && i < |s.clients| && s.clients[i].Creating?
    ensures var k := s.clients[i].kind;
      Leads(s, At(s, i, Created(k, |s.created|)).(created := s.created + [k]))
  {
    LeadsBy(s, Client(i, CreateOk));
  }

  lemma CountFailureLeads(s: State, i: nat)
    requires !s.crashed && i < |s.clients| && s.clients[i].Failing?
    ensures Leads(s, At(s, i, Outside).(counts := Raise(s.counts, AcquireFail, 1)))
  {
    LeadsBy(s, Client(i, CountFailure));
  }

  lemma BeginReleaseLeads(s: State, i: nat, broken: bool)
    requires !s.crashed && i < |s.clients| && s.clients[i].Holding?
    ensures var b := s.clients[i].browser;
      Leads(s, At(s, i, if s.closed then Discarding(b) else Leaving(b, broken)))
  {
    LeadsBy(s, Client(i, BeginRelease(broken)));
  }

  lemma CloseDiscardedLeads(s: State, i: nat)
    requires !s.crashed && i < |s.clients| && s.clients[i].Discarding?
    ensures Leads(s, At(s, i, Outside).(counts := Raise(s.counts, Abandoned, 1),
                                        closeLog := s.closeLog + [s.clients[i].browser]))
  {
    LeadsBy(s, Client(i, CloseDiscarded));
  }

  lemma CountReleaseLeads(s: State, i: nat)
    requires !s.crashed && i < |s.clients| && s.clients[i].Leaving?
    ensures var p := s.clients[i];
      Leads(s, At(s, i, if p.broken then Breaking(p.browser) else Returning(p.browser))
               .(counts := Raise(s.counts, ReleaseTotal, 1)))
  {
    LeadsBy(s, Client(i, CountRelease));
  }

  lemma CloseBrokenLeads(s: State, i: nat)
    requires !s.crashed && i < |s.clients| && s.clients[i].Breaking?
    ensures Leads(s, At(s, i, Broken).(closeLog := s.closeLog + [s.clients[i].browser]))
  {
    LeadsBy(s, Client(i, CloseBroken));
  }

  lemma DropBrokenLeads(s: State, i: nat)
    requires !s.crashed && s.lock.Free? && i < |s.clients| && s.clients[i].Broken?
    ensures Leads(s, At(s, i, Outside).(total := s.total - 1, inUse := s.inUse - 1,
                                        counts := Raise(s.counts, BrokenReleases, 1)))
  {
    LeadsBy(s, Client(i, DropBroken));
  }

  /** Inside the critical section with nothing idle and room for one more. */
  predicate MayReserve(s: State, i: nat) {
    && !s.crashed && i < |s.clients| && s.clients[i].Looping? && !s.clients[i].polling
    && s.clients[i].kind in s.providers && Stack(s.idle, s.clients[i].kind) == []
    && s.total < s.maxInstances
  }

  // ---- the pop loop ----

  lemma DiscardOne(s: State, i: nat, k: Kind, polling: bool)
    requires !s.crashed && i < |s.clients| && s.clients[i] == Looping(k, polling)
    requires polling || k in s.providers
    requires Stack(s.idle, k) != []
    ensures Leads(s, Discard(s, k, |Stack(s.idle, k)| - 1))
  {
    var st := Stack(s.idle, k);
    var t := At(s, i, Pinging(k, polling, TopOf(s, k))).(idle := WithoutTop(s, k));
    PopLeads(s, i, k, polling);
    PingFailedLeads(t, i);
    assert t.clients[i := s.clients[i]] == s.clients;
    assert Popped(st, |st| - 1) == [st[|st| - 1].browser];
    LeadsTrans(s, t, Discard(s, k, |st| - 1));
  }

  lemma {:induction false} DiscardLeads(s: State, i: nat, k: Kind, polling: bool, n: nat)
    requires !s.crashed && i < |s.clients| && s.clients[i] == Looping(k, polling)
    requires polling || k in s.providers
    requires n <= |Stack(s.idle, k)|
    ensures Leads(s, Discard(s, k, n))
    decreases |Stack(s.idle, k)|
  {
    if n == |Stack(s.idle, k)| {
      LeadsSelf(s);
    } else {
      var t := Discard(s, k, |Stack(s.idle, k)| - 1);
      DiscardOne(s, i, k, polling);
      DiscardTwice(s, k, n);
      DiscardLeads(t, i, k, polling, n);
      LeadsTrans(s, t, Discard(s, k, n));
    }
  }

  lemma DiscardTwice(s: State, k: Kind, n: nat)
    requires n < |Stack(s.idle, k)|
    ensures var t := Discard(s, k, |Stack(s.idle, k)| - 1);
      && |Stack(t.idle, k)| == |Stack(s.idle, k)| - 1
      && Discard(t, k, n) == Discard(s, k, n)
  {
    ShedTwice(FieldsOf(s), k, n);
  }

  lemma ShedTwice(f: Fields, k: Kind, n: nat)
    requires n < |Stack(f.idle, k)|
    ensures Shed(Shed(f, k, |Stack(f.idle, k)| - 1), k, n) == Shed(f, k, n)
  {
    var st := Stack(f.idle, k);
    var last := |st| - 1;
    var t := Shed(f, k, last);
    if n < last {
      assert Popped(st, n) == [st[last].browser] + Popped(st[..last], n);
      assert Popped(st, last) == [st[last].browser];
      assert f.closeLog + Popped(st, last) + Popped(st[..last], n) == f.closeLog + Popped(st, n);
      assert st[..last][..n] == st[..n];
      assert Raise(t.counts, EvictTotal, last - n) == Raise(f.counts, EvictTotal, last + 1 - n);
    }
  }

  // ---- Acquire ----

  /** What an uninterrupted Acquire returns: the final phase of its client. */
  datatype Outcome = PoolClosed | NotFound | Reuse(browser: Browser) | MustWait | CreateFails | New(browser: Browser)

  /** What Acquire and Release consult and do not change. */
  datatype Setup = Setup(closed: bool, providers: set<Kind>, maxInstances: int)

  function SetupOf(s: State): Setup {
    Setup(s.closed, s.providers, s.maxInstances)
  }

  function AcquireOutcome(u: Setup, f: Fields, k: Kind, alive: set<Browser>, creates: bool): Outcome {
    if u.closed then PoolClosed
    else if k !in u.providers then NotFound
    else
      var st := Stack(f.idle, k);
      var n := LastAlive(st, alive);
      if n > 0 then Reuse(st[n - 1].browser)
      else if f.total - |st| >= u.maxInstances then MustWait
      else if creates then New(|f.created|)
      else CreateFails
  }

  function Phased(k: Kind, o: Outcome): Phase {
    match o
    case Reuse(b) => Holding(k, b)
    case New(b) => Holding(k, b)
    case MustWait => Waiting(k)
    case _ => Outside
  }

  function AcquireFields(f: Fields, k: Kind, alive: set<Browser>, o: Outcome): Fields
    requires o.Reuse? ==> LastAlive(Stack(f.idle, k), alive) > 0
  {
    if o.PoolClosed? then f else
    var a := Raises(f, AcquireTotal);
    if o.NotFound? then Raises(a, AcquireFail) else
    var n := LastAlive(Stack(f.idle, k), alive);
    var d := Shed(a, k, n);
    if o.Reuse? then Raises(Raises(TakeTopOf(d, k), AcquireSuccess), ReuseTotal)
    else if o.New? then Raises(Raises(AddNew(d, k), AcquireSuccess), CreateTotal)
    else if o.CreateFails? then Raises(d, AcquireFail)
    else d
  }

  /** The pool after an Acquire of client i that nobody interrupts; the pool must be unlocked. */
  function AcquireCall(s: State, i: nat, k: Kind, alive: set<Browser>, creates: bool): State
    requires i < |s.clients|
  {
    var o := AcquireOutcome(SetupOf(s), FieldsOf(s), k, alive, creates);
    if o.PoolClosed? then s else At(With(s, AcquireFields(FieldsOf(s), k, alive, o)), i, Phased(k, o))
  }

  /** The top entry goes to client i. */
  function ReuseEnd(s: State, i: nat, k: Kind): State
    requires i < |s.clients| && Stack(s.idle, k) != []
  {
    var st := Stack(s.idle, k);
    At(With(s, Raises(Raises(TakeTopOf(FieldsOf(s), k), AcquireSuccess), ReuseTotal)),
       i, Holding(k, st[|st| - 1].browser)).(lock := Free)
  }

  /** A new browser goes to client i. */
  function CreateEnd(s: State, i: nat, k: Kind): State
    requires i < |s.clients|
  {
    At(With(s, Raises(Raises(AddNew(FieldsOf(s), k), AcquireSuccess), CreateTotal)),
       i, Holding(k, |s.created|)).(lock := Free)
  }

  lemma EnterLeads(s: State, i: nat, k: Kind)
    requires !s.crashed && !s.closed && s.lock.Free? && i < |s.clients| && s.clients[i].Outside?
    ensures Leads(s, Entered(s, i, k))
  {
    var s1 := At(s, i, Admitted(k));
    BeginLeads(s, i, k);
    var s2 := At(s1, i, Queued(k)).(counts := Raise(s.counts, AcquireTotal, 1));
    CountAcquireLeads(s1, i);
    LeadsTrans(s, s1, s2);
    LockLeads(s2, i);
    assert s2.clients[i := Looping(k, false)] == s.clients[i := Looping(k, false)];
    LeadsTrans(s, s2, Entered(s, i, k));
  }

  /** The pop, the answered ping and the two counters of a reuse. */
  lemma ReuseLeads(s: State, i: nat, k: Kind)
    requires !s.crashed && i < |s.clients| && s.clients[i] == Looping(k, false)
    requires k in s.providers && Stack(s.idle, k) != []
    ensures Leads(s, ReuseEnd(s, i, k))
  {
    var b := TopOf(s, k);
    var s1 := At(s, i, Pinging(k, false, b)).(idle := WithoutTop(s, k));
    PopLeads(s, i, k, false);
    var s2 := At(s1, i, Reused(k, b)).(lock := Free, inUse := s.inUse + 1);
    PingOkLeads(s1, i);
    LeadsTrans(s, s1, s2);
    CountLeads(s2, i);
    assert s2.clients[i := Holding(k, b)] == s.clients[i := Holding(k, b)];
    LeadsTrans(s, s2, ReuseEnd(s, i, k));
  }

  /** Both success counters raised: a new or reused browser is handed to the caller. */
  function HandedOut(s: State, i: nat): State
    requires i < |s.clients| && (s.clients[i].Created? || s.clients[i].Reused?)
  {
    var p := s.clients[i];
    At(s, i, Holding(p.kind, p.browser))
    .(counts := Raise(Raise(s.counts, AcquireSuccess, 1), if p.Created? then CreateTotal else ReuseTotal, 1))
  }

  lemma CountLeads(s: State, i: nat)
    requires !s.crashed && i < |s.clients| && (s.clients[i].Created? || s.clients[i].Reused?)
    ensures Leads(s, HandedOut(s, i))
  {
    var p := s.clients[i];
    var c1 := Client(i, CountSuccess);
    var s1 := Apply(s, c1);
    LeadsBy(s, c1);
    CountKindLeads(s1, i);
    var t := At(s1, i, Holding(p.kind, p.browser))
             .(counts := Raise(s1.counts, if p.Created? then CreateTotal else ReuseTotal, 1));
    LeadsTrans(s, s1, t);
    assert t.clients == s.clients[i := Holding(p.kind, p.browser)];
  }

  lemma CountKindLeads(s: State, i: nat)
    requires !s.crashed && i < |s.clients| && (s.clients[i].CreateCounted? || s.clients[i].ReuseCounted?)
    ensures var p := s.clients[i];
      Leads(s, At(s, i, Holding(p.kind, p.browser))
               .(counts := Raise(s.counts, if p.CreateCounted? then CreateTotal else ReuseTotal, 1)))
  {
    LeadsBy(s, Client(i, CountKind));
  }

  lemma CreateLeads(s: State, i: nat)
    requires MayReserve(s, i)
    ensures Leads(s, CreateEnd(s, i, s.clients[i].kind))
  {
    var k := s.clients[i].kind;
    var s1 := At(s, i, Creating(k)).(lock := Free, total := s.total + 1, inUse := s.inUse + 1);
    ReserveLeads(s, i);
    var s2 := At(s1, i, Created(k, |s.created|)).(created := s.created + [k]);
    CreateOkLeads(s1, i);
    LeadsTrans(s, s1, s2);
    CountLeads(s2, i);
    assert s2.clients[i := Holding(k, |s.created|)] == s.clients[i := Holding(k, |s.created|)];
    LeadsTrans(s, s2, CreateEnd(s, i, k));
  }

  /** A failed Create gives back exactly its own reservation. */
  lemma CreateFailsLeads(s: State, i: nat)
    requires MayReserve(s, i)
    ensures Leads(s, At(s, i, Outside).(lock := Free, counts := Raise(s.counts, AcquireFail, 1)))
  {
    var s1 := At(s, i, Creating(s.clients[i].kind)).(lock := Free, total := s.total + 1, inUse := s.inUse + 1);
    ReserveLeads(s, i);
    var s2 := At(s1, i, Failing).(total := s.total, inUse := s.inUse);
    UndoLeads(s1, i);
    LeadsTrans(s, s1, s2);
    CountFailureLeads(s2, i);
    assert s2.clients[i := Outside] == s.clients[i := Outside];
    LeadsTrans(s, s2, At(s, i, Outside).(lock := Free, counts := Raise(s.counts, AcquireFail, 1)));
  }

  lemma UndoLeads(s: State, i: nat)
    requires !s.crashed && s.lock.Free? && i < |s.clients| && s.clients[i].Creating?
    ensures Leads(s, At(s, i, Failing).(total := s.total - 1, inUse := s.inUse - 1))
  {
    var fail := Client(i, CreateFailed);
    var s1 := Apply(s, fail);
    LeadsBy(s, fail);
    var undo := Client(i, Undo);
    LeadsBy(s1, undo);
    LeadsTrans(s, s1, Apply(s1, undo));
    assert Apply(s1, undo).clients == s.clients[i := Failing];
  }

  lemma GiveUpLeads(s: State, i: nat)
    requires !s.crashed && i < |s.clients| && s.clients[i].Looping? && Stack(s.idle, s.clients[i].kind) == []
    requires s.clients[i].polling || (s.clients[i].kind in s.providers && s.total >= s.maxInstances)
    ensures Leads(s, At(s, i, Waiting(s.clients[i].kind)).(lock := Free))
  {
    LeadsBy(s, Client(i, GiveUp));
  }

  lemma NotFoundLeads(s: State, i: nat)
    requires !s.crashed && i < |s.clients| && s.clients[i].Looping? && !s.clients[i].polling
    requires s.clients[i].kind !in s.providers
    ensures Leads(s, At(s, i, Outside).(lock := Free, counts := Raise(s.counts, AcquireFail, 1)))
  {
    var t := At(s, i, Failing).(lock := Free);
    LeadsBy(s, Client(i, NoProvider));
    assert Leads(s, t);
    CountFailureLeads(t, i);
    assert t.clients[i := Outside] == s.clients[i := Outside];
    LeadsTrans(s, t, At(s, i, Outside).(lock := Free, counts := Raise(s.counts, AcquireFail, 1)));
  }

  /** An Acquire that nobody interrupts is a run of the step system. */
  lemma AcquireCallLeads(s: State, i: nat, k: Kind, alive: set<Browser>, creates: bool)
    requires !s.crashed && s.lock.Free? && i < |s.clients| && s.clients[i].Outside?
    ensures Leads(s, AcquireCall(s, i, k, alive, creates))
  {
    var o := AcquireOutcome(SetupOf(s), FieldsOf(s), k, alive, creates);
    if o.PoolClosed? {
      LeadsSelf(s);
    } else {
      var e := Entered(s, i, k);
      EnterLeads(s, i, k);
      if o.NotFound? {
        NotFoundLeads(e, i);
        LeadsTrans(s, e, At(e, i, Outside).(lock := Free, counts := Raise(e.counts, AcquireFail, 1)));
        assert e.clients[i := Outside] == s.clients[i := Outside];
      } else {
        var n := LastAlive(Stack(s.idle, k), alive);
        var d := Discard(e, k, n);
        DiscardLeads(e, i, k, false, n);
        LeadsTrans(s, e, d);
        var f := With(s, Shed(Raises(FieldsOf(s), AcquireTotal), k, n));
        LoopEndLeads(s, f, d, i, k, alive, creates);
        LeadsTrans(s, d, AcquireCall(s, i, k, alive, creates));
      }
    }
  }

  /** d is f with client i inside the critical section, at the loop. */
  predicate LoopAt(f: State, d: State, i: nat, k: Kind) {
    && i < |f.clients| && f.lock.Free? && !f.crashed && k in f.providers
    && d == At(f, i, Looping(k, false)).(lock := HeldBy(i))
  }

  /** The state at the end of the pop loop of an Acquire that found the pool open and a provider. */
  predicate LoopDone(s: State, f: State, d: State, i: nat, k: Kind, alive: set<Browser>) {
    && !s.closed && s.lock.Free? && i < |s.clients|
    && f == With(s, Shed(Raises(FieldsOf(s), AcquireTotal), k, LastAlive(Stack(s.idle, k), alive)))
    && LoopAt(f, d, i, k)
  }

  lemma ReuseEndFields(f: Fields, k: Kind, alive: set<Browser>)
    requires LastAlive(Stack(f.idle, k), alive) > 0
    ensures var n := LastAlive(Stack(f.idle, k), alive);
      var d := Shed(Raises(f, AcquireTotal), k, n);
      && Stack(d.idle, k) == Stack(f.idle, k)[..n]
      && Raises(Raises(TakeTopOf(d, k), AcquireSuccess), ReuseTotal)
         == AcquireFields(f, k, alive, Reuse(Stack(f.idle, k)[n - 1].browser))
  {
  }

  lemma ReuseFrom(s: State, f: State, d: State, i: nat, k: Kind, alive: set<Browser>, creates: bool)
    requires LoopDone(s, f, d, i, k, alive) && LastAlive(Stack(s.idle, k), alive) > 0
    ensures Leads(d, AcquireCall(s, i, k, alive, creates))
  {
    ReuseEndFields(FieldsOf(s), k, alive);
    ReuseLeads(d, i, k);
    assert ReuseEnd(d, i, k).clients == AcquireCall(s, i, k, alive, creates).clients;
  }

  lemma WaitFrom(s: State, f: State, d: State, i: nat, k: Kind, alive: set<Browser>, creates: bool)
    requires LoopDone(s, f, d, i, k, alive) && LastAlive(Stack(s.idle, k), alive) == 0
    requires d.total >= d.maxInstances
    ensures Leads(d, AcquireCall(s, i, k, alive, creates))
  {
    GiveUpLeads(d, i);
    assert d.clients[i := Waiting(k)] == AcquireCall(s, i, k, alive, creates).clients;
  }

  lemma CreateFrom(s: State, f: State, d: State, i: nat, k: Kind, alive: set<Browser>)
    requires LoopDone(s, f, d, i, k, alive) && LastAlive(Stack(s.idle, k), alive) == 0
    requires d.total < d.maxInstances
    ensures Leads(d, AcquireCall(s, i, k, alive, true))
  {
    CreateLeads(d, i);
    assert CreateEnd(d, i, k).clients == AcquireCall(s, i, k, alive, true).clients;
  }

  lemma CreateFailsFrom(s: State, f: State, d: State, i: nat, k: Kind, alive: set<Browser>)
    requires LoopDone(s, f, d, i, k, alive) && LastAlive(Stack(s.idle, k), alive) == 0
    requires d.total < d.maxInstances
    ensures Leads(d, AcquireCall(s, i, k, alive, false))
  {
    CreateFailsLeads(d, i);
    assert d.clients[i := Outside] == AcquireCall(s, i, k, alive, false).clients;
  }

  /** What follows the pop loop, from its end d to the return of Acquire. */
  lemma LoopEndLeads(s: State, f: State, d: State, i: nat, k: Kind, alive: set<Browser>, creates: bool)
    requires LoopDone(s, f, d, i, k, alive)
    ensures Leads(d, AcquireCall(s, i, k, alive, creates))
  {
    if LastAlive(Stack(s.idle, k), alive) > 0 {
      ReuseFrom(s, f, d, i, k, alive, creates);
    } else if d.total >= d.maxInstances {
      WaitFrom(s, f, d, i, k, alive, creates);
    } else if creates {
      CreateFrom(s, f, d, i, k, alive);
    } else {
      CreateFailsFrom(s, f, d, i, k, alive);
    }
  }

  // ---- Release ----

  /** Release of browser b at time now. */
  function ReleaseFields(f: Fields, b: Browser, closed: bool, broken: bool, now: int): Fields {
    if closed then
      Raises(f, Abandoned).(closeLog := f.closeLog + [b])
    else if broken then
      Raises(Raises(f, ReleaseTotal), BrokenReleases)
      .(closeLog := f.closeLog + [b], total := f.total - 1, inUse := f.inUse - 1)
    else
      var k := if b < |f.created| then f.created[b] else 0;
      Raises(Raises(f, ReleaseTotal), PutBacks)
      .(inUse := f.inUse - 1, idle := f.idle[k := Stack(f.idle, k) + [Entry(b, now)]])
  }

  /** The pool after a Release of client i that nobody interrupts. */
  function ReleaseCall(s: State, i: nat, broken: bool): State
    requires i < |s.clients| && s.clients[i].Holding?
  {
    At(With(s, ReleaseFields(FieldsOf(s), s.clients[i].browser, s.closed, broken, s.now)), i, Outside)
  }

  lemma ReleaseCallLeads(s: State, i: nat, broken: bool)
    requires !s.crashed && s.lock.Free? && i < |s.clients| && s.clients[i].Holding?
    requires s.drained ==> s.closed
    ensures Leads(s, ReleaseCall(s, i, broken))
  {
    if s.closed {
      DiscardingLeads(s, i, broken);
    } else {
      LeavingLeads(s, i, broken);
      FinishLeads(Left(s, i, broken), i);
      assert Finished(Left(s, i, broken), i).clients == s.clients[i := Outside];
      LeadsTrans(s, Left(s, i, broken), Finished(Left(s, i, broken), i));
    }
  }

  lemma DiscardingLeads(s: State, i: nat, broken: bool)
    requires !s.crashed && s.closed && i < |s.clients| && s.clients[i].Holding?
    ensures Leads(s, ReleaseCall(s, i, broken))
  {
    var t := At(s, i, Discarding(s.clients[i].browser));
    BeginReleaseLeads(s, i, broken);
    CloseDiscardedLeads(t, i);
    assert t.clients[i := Outside] == s.clients[i := Outside];
    LeadsTrans(s, t, ReleaseCall(s, i, broken));
  }

  /** A Release that found the pool open and was counted. */
  function Left(s: State, i: nat, broken: bool): State
    requires i < |s.clients| && s.clients[i].Holding?
  {
    var b := s.clients[i].browser;
    At(With(s, Raises(FieldsOf(s), ReleaseTotal)), i, if broken then Breaking(b) else Returning(b))
  }

  lemma LeavingLeads(s: State, i: nat, broken: bool)
    requires !s.crashed && !s.closed && i < |s.clients| && s.clients[i].Holding?
    ensures Leads(s, Left(s, i, broken))
  {
    var b := s.clients[i].browser;
    var t := At(s, i, Leaving(b, broken));
    BeginReleaseLeads(s, i, broken);
    CountReleaseLeads(t, i);
    var next := if broken then Breaking(b) else Returning(b);
    assert t.clients[i := next] == s.clients[i := next];
    LeadsTrans(s, t, Left(s, i, broken));
  }

  /** The rest of that Release. */
  function Finished(s: State, i: nat): State
    requires i < |s.clients| && (s.clients[i].Breaking? || s.clients[i].Returning?)
  {
    var b, f := s.clients[i].browser, FieldsOf(s);
    var k := KindOf(s, b);
    At(With(s, if s.clients[i].Breaking?
               then Raises(f, BrokenReleases)
                    .(closeLog := f.closeLog + [b], total := f.total - 1, inUse := f.inUse - 1)
               else Raises(f, PutBacks)
                    .(inUse := f.inUse - 1, idle := f.idle[k := Stack(f.idle, k) + [Entry(b, s.now)]])),
       i, Outside)
  }

  lemma FinishLeads(s: State, i: nat)
    requires !s.crashed && !s.drained && s.lock.Free? && i < |s.clients|
    requires s.clients[i].Breaking? || s.clients[i].Returning?
    ensures Leads(s, Finished(s, i))
  {
    if s.clients[i].Breaking? {
      BrokenLeads(s, i);
    } else {
      LeadsBy(s, Client(i, PutBack));
    }
  }

  lemma BrokenLeads(s: State, i: nat)
    requires !s.crashed && s.lock.Free? && i < |s.clients| && s.clients[i].Breaking?
    ensures Leads(s, At(s, i, Outside)
                     .(closeLog := s.closeLog + [s.clients[i].browser], total := s.total - 1, inUse := s.inUse - 1,
                       counts := Raise(s.counts, BrokenReleases, 1)))
  {
    var log := s.closeLog + [s.clients[i].browser];
    var t := At(s, i, Broken).(closeLog := log);
    CloseBrokenLeads(s, i);
    DropBrokenLeads(t, i);
    assert t.clients[i := Outside] == s.clients[i := Outside];
    LeadsTrans(s, t, At(s, i, Outside).(closeLog := log, total := s.total - 1, inUse := s.inUse - 1,
                                        counts := Raise(s.counts, BrokenReleases, 1)));
  }

  lemma NewestAlive(st: seq<Entry>, now: int, alive: set<Browser>, j: nat)
    requires Sorted(st, now) && j < |st| && st[j].browser in alive
    ensures var n := LastAlive(st, alive); n > 0 && st[j].lastUsed <= st[n - 1].lastUsed
  {
    assert j < LastAlive(st, alive);
  }

  /** Of the idle browsers that answer a ping, reuse takes the one released last. */
  lemma ReuseIsNewestAlive(s: State, k: Kind, alive: set<Browser>, e: Entry)
    requires Reachable(s) && e in Stack(s.idle, k) && e.browser in alive
    ensures var st := Stack(s.idle, k); var n := LastAlive(st, alive);
      n > 0 && e.lastUsed <= st[n - 1].lastUsed
  {
    ReachableInv(s);
    var st := Stack(s.idle, k);
    var j :| 0 <= j < |st| && st[j] == e;
    NewestAlive(st, s.now, alive, j);
  }

  /**
   A reuse followed by an error-free release: the dead entries above the browser are
   gone, the browser is back on top of the same rest, and inUse is what it was.
   */
  lemma ReuseThenRelease(f: Fields, k: Kind, alive: set<Browser>, now: int)
    requires LastAlive(Stack(f.idle, k), alive) > 0
    requires var n := LastAlive(Stack(f.idle, k), alive); var b := Stack(f.idle, k)[n - 1].browser;
      b < |f.created| && f.created[b] == k
    ensures var st := Stack(f.idle, k);
      var n := LastAlive(st, alive);
      var b := st[n - 1].browser;
      var g := ReleaseFields(AcquireFields(f, k, alive, Reuse(b)), b, false, false, now);
      && Stack(g.idle, k) == st[..n - 1] + [Entry(b, now)]
      && (forall j | j != k :: Stack(g.idle, j) == Stack(f.idle, j))
      && g.inUse == f.inUse && g.created == f.created
      && g.total == f.total - (|st| - n)
      && g.closeLog == f.closeLog + Popped(st, n)
  {
    var st := Stack(f.idle, k);
    var n := LastAlive(st, alive);
    assert st[..n][..n - 1] == st[..n - 1];
  }

  // ---- evictIdle and Close ----

  lemma EvictCallLeads(s: State, evicted: seq<Browser>)
    requires Enabled(s, Evict(evicted))
    ensures Leads(s, Apply(s, Evict(evicted)))
  {
    LeadsBy(s, Evict(evicted));
  }

  /** The pool after a call of Close that closes the idle browsers in the given order. */
  ghost function CloseCall(s: State, closing: seq<Browser>): State {
    if s.closed then s else Apply(Apply(s, SetClosed), Drain(closing))
  }

  lemma CloseCallLeads(s: State, closing: seq<Browser>)
    requires !s.crashed && !s.drained && s.lock.Free? && Removes(s.idle, map[], closing)
    ensures Leads(s, CloseCall(s, closing))
  {
    if s.closed {
      LeadsSelf(s);
    } else {
      var t := Apply(s, SetClosed);
      LeadsBy(s, SetClosed);
      LeadsBy(t, Drain(closing));
      LeadsTrans(s, t, Apply(t, Drain(closing)));
    }
  }

  // ---- the panic, from a new pool ----

  lemma NobodyReturns(s: State, i: nat)
    requires Books(s) && Capped(s) && s.maxInstances <= 0 && i < |s.clients|
    ensures !s.clients[i].Returning?
  {
    SumAtLeast(InUse, s.clients, i);
  }

  lemma OnlyReturningPanics(s: State, i: nat, move: Move)
    requires i < |s.clients| && MoveEnabled(s, i, move) && !s.clients[i].Returning?
    ensures !MoveEffect(s, i, move).next.Panicked?
  {
  }

  lemma CrampedStep(s: State, a: Action)
    requires Inv(s) && !s.crashed && Enabled(s, a) && (s.clients == [] || s.maxInstances <= 0)
    ensures var t := Apply(s, a); !t.crashed && (t.clients == [] || t.maxInstances <= 0)
  {
    if a.Client? {
      NobodyReturns(s, a.i);
      OnlyReturningPanics(s, a.i, a.move);
    }
  }

  lemma {:induction false} CrampedRun(s: State, acts: seq<Action>)
    requires Inv(s) && !s.crashed && CanRun(s, acts) && (s.clients == [] || s.maxInstances <= 0)
    ensures !Run(s, acts).crashed
    decreases |acts|
  {
    if acts != [] {
      CrampedStep(s, acts[0]);
      StepInv(s, acts[0]);
      CrampedRun(Apply(s, acts[0]), acts[1..]);
    }
  }

  /** An Acquire, the first step of its Release and the start of Close, after which the rest can panic. */
  lemma NewPoolPanics(s: State, k: Kind)
    requires Init(s) && s.clients != [] && s.maxInstances > 0
    ensures exists acts :: CanRun(s, acts) && Run(s, acts).crashed
  {
    var t0 := Apply(s, Register(k));
    LeadsBy(s, Register(k));
    var t1 := AcquireCall(t0, 0, k, {}, true);
    AcquireCallLeads(t0, 0, k, {}, true);
    LeadsTrans(s, t0, t1);
    assert t1.clients[0] == Holding(k, 0);
    var t2 := At(t1, 0, Leaving(0, false));
    BeginReleaseLeads(t1, 0, false);
    LeadsTrans(s, t1, t2);
    var t3 := Apply(t2, SetClosed);
    LeadsBy(t2, SetClosed);
    LeadsTrans(s, t2, t3);
    var rest := WindowPanics(t3, 0);
    assert CanRun(t3, rest);
    var u := Run(t3, rest);
    LeadsTrans(s, t3, u);
    assert Leads(s, u) && u.crashed;
  }

  /** Exactly when a new pool can run into the panic: it has a client and room for one browser. */
  lemma NewPoolPanicsIff(s: State)
    requires Init(s)
    ensures (exists acts :: CanRun(s, acts) && Run(s, acts).crashed) <==> s.clients != [] && s.maxInstances > 0
  {
    if s.clients != [] && s.maxInstances > 0 {
      NewPoolPanics(s, 0);
    } else {
      InitInv(s);
      forall acts | CanRun(s, acts) ensures !Run(s, acts).crashed { CrampedRun(s, acts); }
    }
  }
}
