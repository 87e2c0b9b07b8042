/** What every step of the pool keeps. */
module PoolInvariant {
  import opened PoolProtocol
  import opened PoolCounts

  /** In how many places browser b is: idle slots, clients' hands, closed. */
  ghost function Places(s: State, b: Browser): nat {
    IdleCount(Only(b), s.idle) + Sum(Holds(b), s.clients) + Times(s.closeLog, b)
  }

  /** Every created browser is in exactly one place, and no other one anywhere. */
  ghost predicate Owned(s: State) {
    && (forall b: Browser :: Places(s, b) == if b < |s.created| then 1 else 0)
    && |s.created| == IdleCount(All, s.idle) + Sum(Hands, s.clients) + |s.closeLog|
  }

  /** Stacks hold browsers of their own kind; acquired browsers have the kind asked for. */
  ghost predicate Kinds(s: State) {
    && (forall k, e | k in s.idle && e in s.idle[k] :: KindOf(s, e.browser) == k && e.browser < |s.created|)
    && (forall i | 0 <= i < |s.clients| :: KindOk(s, s.clients[i]))
  }

  predicate KindOk(s: State, p: Phase) {
    && (HasBrowser(p) ==> p.browser < |s.created|)
    && (HasKind(p) ==> KindOf(s, p.browser) == p.kind)
  }

  /** Phases from a pop or a Create to the return of Acquire, and holding. */
  predicate HasKind(p: Phase) {
    p.Pinging? || p.Created? || p.CreateCounted? || p.Reused? || p.ReuseCounted? || p.Holding?
  }

  /** The mutex is held exactly by the client inside the critical section. */
  ghost predicate Locks(s: State) {
    && (forall i | 0 <= i < |s.clients| :: InSection(s.clients[i]) <==> s.lock == HeldBy(i))
    && (s.lock.HeldBy? ==> s.lock.client < |s.clients|)
  }

  /** The fields and counters of the pool add up. */
  ghost predicate Books(s: State) {
    Adds(s.total, s.inUse, IdleCount(All, s.idle), s.clients, s.counts)
  }

  ghost predicate Adds(total: int, inUse: int, idle: nat, clients: seq<Phase>, counts: map<Tally, nat>) {
    && total == inUse + idle + Sum(Spare, clients) + Count(counts, DrainedIdle)
    && inUse == Sum(InUse, clients) + Count(counts, Abandoned)
    && total == Count(counts, CreateTotal) + Sum(Reserved, clients)
       - Count(counts, EvictTotal) - Count(counts, BrokenReleases)
    && Count(counts, AcquireTotal) == Count(counts, AcquireSuccess) + Count(counts, AcquireFail)
       + Sum(Acquiring, clients) + Count(counts, WaitsEnded)
    && Count(counts, AcquireSuccess) == Count(counts, CreateTotal) + Count(counts, ReuseTotal)
       + Sum(Counted, clients)
    && Count(counts, ReleaseTotal) == Count(counts, PutBacks) + Count(counts, BrokenReleases)
       + Sum(Releasing, clients)
  }

  predicate Capped(s: State) {
    s.total <= if s.maxInstances > 0 then s.maxInstances else 0
  }

  /** What the closed flag and the emptied stacks imply. */
  ghost predicate Closing(s: State) {
    && (s.drained ==> s.closed && s.idle == map[])
    && (!s.closed ==> Count(s.counts, Abandoned) == 0)
    && (!s.drained ==> Count(s.counts, DrainedIdle) == 0)
    && (s.crashed ==> s.drained)
    && (forall i | 0 <= i < |s.clients| ::
          && (s.clients[i].Discarding? ==> s.closed)
          && (s.clients[i].Panicked? ==> s.crashed))
  }

  predicate Sorted(es: seq<Entry>, now: int) {
    && (forall i, j | 0 <= i < j < |es| :: es[i].lastUsed <= es[j].lastUsed)
    && (forall i | 0 <= i < |es| :: es[i].lastUsed <= now)
  }

  /** The most recently released browser is at the end of its stack. */
  ghost predicate Aged(s: State) {
    forall k | k in s.idle :: Sorted(s.idle[k], s.now)
  }

  ghost predicate Inv(s: State) {
    Owned(s) && Kinds(s) && Locks(s) && Books(s) && Capped(s) && Closing(s) && Aged(s)
  }

  lemma InitInv(s: State)
    requires Init(s)
    ensures Inv(s)
  {
    forall w ensures Sum(w, s.clients) == 0 { SumZero(w, s.clients); }
  }

  // ---- what one move does, in terms of its effect ----

  /** How an effect changes a count of idle slots. */
  function Shelved(pick: Pick, e: Effect): int {
    match e.shelf
    case Leave => 0
    case TakeTop(_) => if HasBrowser(e.next) && (pick == All || pick.browser == e.next.browser) then -1 else 0
    case PutOn(_, b) => if pick == All || pick.browser == b then 1 else 0
  }

  /** 1 when the effect raises counter x. */
  function Up(e: Effect, x: Tally): int {
    if e.raised == One(x) then 1 else 0
  }

  /*
   An effect that takes a client on from phase p keeps the books when the shares
   of the phases change as the fields and counters do.
   */

  predicate TotalBalanced(p: Phase, e: Effect) {
    e.total == e.inUse + Shelved(All, e) + Share(e.next).spare - Share(p).spare
  }

  predicate InUseBalanced(p: Phase, e: Effect) {
    e.inUse == Share(e.next).inUse - Share(p).inUse + Up(e, Abandoned)
  }

  predicate CreatesBalanced(p: Phase, e: Effect) {
    e.total == Up(e, CreateTotal) + Share(e.next).reserved - Share(p).reserved
               - Up(e, EvictTotal) - Up(e, BrokenReleases)
  }

  predicate AcquiresBalanced(p: Phase, e: Effect) {
    Up(e, AcquireTotal) == Up(e, AcquireSuccess) + Up(e, AcquireFail) + Share(e.next).acquiring - Share(p).acquiring
                           + Up(e, WaitsEnded)
  }

  predicate SuccessesBalanced(p: Phase, e: Effect) {
    Up(e, AcquireSuccess) == Up(e, CreateTotal) + Up(e, ReuseTotal) + Share(e.next).counted - Share(p).counted
  }

  predicate ReleasesBalanced(p: Phase, e: Effect) {
    Up(e, ReleaseTotal) == Up(e, PutBacks) + Up(e, BrokenReleases) + Share(e.next).releasing - Share(p).releasing
  }

  predicate Balanced(p: Phase, e: Effect) {
    && TotalBalanced(p, e) && InUseBalanced(p, e) && CreatesBalanced(p, e)
    && AcquiresBalanced(p, e) && SuccessesBalanced(p, e) && ReleasesBalanced(p, e)
    && e.raised != One(DrainedIdle)
  }

  /** Browsers only change places: from client to stack, stack to client, client to closed, or new to client. */
  predicate Conserves(s: State, p: Phase, e: Effect) {
    && (e.closes ==> HasBrowser(p) && !HasBrowser(e.next) && e.shelf.Leave? && !e.creates)
    && (e.creates ==> e.next.Created? && !HasBrowser(p) && e.next.browser == |s.created| && e.shelf.Leave?)
    && (e.shelf.TakeTop? ==>
          var st := Stack(s.idle, e.shelf.kind);
          !HasBrowser(p) && e.next.Pinging? && e.next.kind == e.shelf.kind
          && st != [] && e.next.browser == st[|st| - 1].browser)
    && (e.shelf.PutOn? ==>
          HasBrowser(p) && !HasBrowser(e.next) && e.shelf.browser == p.browser
          && e.shelf.kind == KindOf(s, p.browser) && !s.drained)
    && (!e.closes && !e.creates && e.shelf.Leave? ==>
          && HasBrowser(e.next) == HasBrowser(p)
          && (HasBrowser(p) ==> e.next.browser == p.browser))
  }

  lemma MoveTotalBalanced(s: State, i: nat, move: Move)
    requires i < |s.clients| && MoveEnabled(s, i, move)
    ensures TotalBalanced(s.clients[i], MoveEffect(s, i, move))
  {
  }

  lemma MoveInUseBalanced(s: State, i: nat, move: Move)
    requires i < |s.clients| && MoveEnabled(s, i, move)
    ensures InUseBalanced(s.clients[i], MoveEffect(s, i, move))
  {
  }

  lemma MoveCreatesBalanced(s: State, i: nat, move: Move)
    requires i < |s.clients| && MoveEnabled(s, i, move)
    ensures CreatesBalanced(s.clients[i], MoveEffect(s, i, move))
  {
  }

  lemma MoveAcquiresBalanced(s: State, i: nat, move: Move)
    requires i < |s.clients| && MoveEnabled(s, i, move)
    ensures AcquiresBalanced(s.clients[i], MoveEffect(s, i, move))
  {
  }

  lemma MoveSuccessesBalanced(s: State, i: nat, move: Move)
    requires i < |s.clients| && MoveEnabled(s, i, move)
    ensures SuccessesBalanced(s.clients[i], MoveEffect(s, i, move))
  {
  }

  lemma MoveReleasesBalanced(s: State, i: nat, move: Move)
    requires i < |s.clients| && MoveEnabled(s, i, move)
    ensures ReleasesBalanced(s.clients[i], MoveEffect(s, i, move))
  {
  }

  lemma MoveConserves(s: State, i: nat, move: Move)
    requires i < |s.clients| && MoveEnabled(s, i, move)
    ensures Conserves(s, s.clients[i], MoveEffect(s, i, move))
  {
  }

  /** The effect respects the cap, the mutex, the closed flag and the kind asked for. */
  predicate Guarded(s: State, i: nat, e: Effect)
    requires i < |s.clients|
  {
    var p := s.clients[i];
    && (e.total <= 0 || s.total + e.total <= s.maxInstances)
    && (if InSection(p) == InSection(e.next) then e.lock == s.lock
        else if InSection(p) then e.lock == Free
        else s.lock == Free && e.lock == HeldBy(i))
    && (e.next.Discarding? || e.raised == One(Abandoned) ==> s.closed || p.Discarding?)
    && (e.next.Panicked? ==> s.drained || p.Panicked?)
    && e.raised != One(DrainedIdle)
  }

  /** A browser keeps the kind under which the client got it. */
  predicate KeepsKind(p: Phase, e: Effect) {
    HasKind(e.next) && !e.creates && e.shelf.Leave? ==> HasKind(p) && p.kind == e.next.kind
  }

  lemma MoveGuarded(s: State, i: nat, move: Move)
    requires i < |s.clients| && MoveEnabled(s, i, move)
    ensures Guarded(s, i, MoveEffect(s, i, move))
  {
  }

  lemma MoveKeepsKind(s: State, i: nat, move: Move)
    requires i < |s.clients| && MoveEnabled(s, i, move)
    ensures KeepsKind(s.clients[i], MoveEffect(s, i, move))
  {
  }

  lemma IdleStep(pick: Pick, s: State, i: nat, e: Effect)
    requires i < |s.clients| && Conserves(s, s.clients[i], e)
    ensures IdleCount(pick, Shelve(s, e.shelf)) == IdleCount(pick, s.idle) + Shelved(pick, e)
  {
    match e.shelf
    case Leave =>
    case TakeTop(k) =>
      var st := Stack(s.idle, k);
      var rest, top := st[..|st| - 1], st[|st| - 1];
      assert st == rest + [top];
      SlotCountPush(pick, rest, top);
      IdleCountUpdate(pick, s.idle, k, rest);
    case PutOn(k, b) =>
      var st, top := Stack(s.idle, k), Entry(b, s.now);
      SlotCountPush(pick, st, top);
      IdleCountUpdate(pick, s.idle, k, st + [top]);
  }

  // ---- ownership ----

  lemma OwnedMove(s: State, i: nat, e: Effect, b: Browser)
    requires Owned(s) && i < |s.clients| && Conserves(s, s.clients[i], e)
    ensures Places(Moved(s, i, e), b) == if b < |Moved(s, i, e).created| then 1 else 0
  {
    Reweigh(Holds(b), s.clients, i, e.next);
    IdleStep(Only(b), s, i, e);
    var t := Moved(s, i, e);
    assert Places(s, b) == if b < |s.created| then 1 else 0;
    assert e.closes ==> Times(t.closeLog, b) == Times(s.closeLog, b) + W(Holds(b), s.clients[i]);
    assert e.creates ==> W(Holds(b), e.next) == if b == |s.created| then 1 else 0;
    assert e.shelf.TakeTop? ==> Shelved(Only(b), e) + W(Holds(b), e.next) == 0;
  }

  lemma HandsMove(s: State, i: nat, e: Effect)
    requires Owned(s) && i < |s.clients| && Conserves(s, s.clients[i], e)
    ensures var t := Moved(s, i, e);
      |t.created| == IdleCount(All, t.idle) + Sum(Hands, t.clients) + |t.closeLog|
  {
    Reweigh(Hands, s.clients, i, e.next);
    IdleStep(All, s, i, e);
  }

  // ---- the books ----

  /** Sums and counters of t are those of s, changed as effect e on client i says. */
  ghost predicate Changes(s: State, t: State, p: Phase, e: Effect) {
    && (forall x :: Count(t.counts, x) == Count(s.counts, x) + Up(e, x))
    && (forall w :: Sum(w, t.clients) == Sum(w, s.clients) + W(w, e.next) - W(w, p))
    && IdleCount(All, t.idle) == IdleCount(All, s.idle) + Shelved(All, e)
    && t.total == s.total + e.total
    && t.inUse == s.inUse + e.inUse
  }

  lemma MoveChanges(s: State, i: nat, e: Effect)
    requires i < |s.clients| && Conserves(s, s.clients[i], e)
    ensures Changes(s, Moved(s, i, e), s.clients[i], e)
  {
    forall w { Reweigh(w, s.clients, i, e.next); }
    IdleStep(All, s, i, e);
  }

  lemma BooksChange(s: State, t: State, p: Phase, e: Effect)
    requires Books(s) && Changes(s, t, p, e) && Balanced(p, e)
    ensures Books(t)
  {
  }

  // ---- kinds, ages, lock and flags ----

  lemma KindsMove(s: State, i: nat, e: Effect)
    requires Kinds(s) && i < |s.clients| && Conserves(s, s.clients[i], e) && KeepsKind(s.clients[i], e)
    ensures Kinds(Moved(s, i, e))
  {
    var t := Moved(s, i, e);
    forall k, x | k in t.idle && x in t.idle[k]
      ensures KindOf(t, x.browser) == k && x.browser < |t.created|
    {
      assert x in Stack(s.idle, k) || x == Entry(s.clients[i].browser, s.now);
    }
    forall j | 0 <= j < |t.clients| ensures KindOk(t, t.clients[j]) {
      assert KindOk(s, s.clients[j]);
      if e.shelf.TakeTop? {
        var st := Stack(s.idle, e.shelf.kind);
        assert st[|st| - 1] in st;
      }
    }
  }

  lemma AgedMove(s: State, i: nat, e: Effect)
    requires Aged(s) && i < |s.clients| && Conserves(s, s.clients[i], e)
    ensures Aged(Moved(s, i, e))
  {
  }

  lemma LocksMove(s: State, i: nat, e: Effect)
    requires Locks(s) && Closing(s) && Capped(s) && i < |s.clients|
    requires Conserves(s, s.clients[i], e) && Guarded(s, i, e)
    ensures Locks(Moved(s, i, e)) && Closing(Moved(s, i, e)) && Capped(Moved(s, i, e))
  {
    var t := Moved(s, i, e);
    forall j | 0 <= j < |t.clients| ensures InSection(t.clients[j]) <==> t.lock == HeldBy(j) {
      assert InSection(s.clients[i]) <==> s.lock == HeldBy(i);
      assert InSection(s.clients[j]) <==> s.lock == HeldBy(j);
    }
  }

  lemma MoveInv(s: State, i: nat, move: Move)
    requires Inv(s) && i < |s.clients| && MoveEnabled(s, i, move)
    ensures Inv(Apply(s, Client(i, move)))
  {
    var p, e := s.clients[i], MoveEffect(s, i, move);
    MoveConserves(s, i, move);
    MoveGuarded(s, i, move);
    assert Balanced(p, e) by {
      MoveTotalBalanced(s, i, move);
      MoveInUseBalanced(s, i, move);
      MoveCreatesBalanced(s, i, move);
      MoveAcquiresBalanced(s, i, move);
      MoveSuccessesBalanced(s, i, move);
      MoveReleasesBalanced(s, i, move);
    }
    assert KeepsKind(p, e) by { MoveKeepsKind(s, i, move); }
    EffectInv(s, i, e);
  }

  lemma EffectInv(s: State, i: nat, e: Effect)
    requires Inv(s) && i < |s.clients|
    requires Conserves(s, s.clients[i], e) && Guarded(s, i, e)
    requires Balanced(s.clients[i], e) && KeepsKind(s.clients[i], e)
    ensures Inv(Moved(s, i, e))
  {
    forall b: Browser { OwnedMove(s, i, e, b); }
    HandsMove(s, i, e);
    MoveChanges(s, i, e);
    BooksChange(s, Moved(s, i, e), s.clients[i], e);
    KindsMove(s, i, e);
    AgedMove(s, i, e);
    LocksMove(s, i, e);
  }

  // ---- eviction ----

  lemma {:induction false} KeepMembers(es: seq<Entry>, now: int, timeout: int, e: Entry)
    ensures e in Keep(es, now, timeout) <==> e in es && now - e.lastUsed <= timeout
  {
    if es != [] {
      KeepMembers(es[..|es| - 1], now, timeout, e);
      assert es == es[..|es| - 1] + [es[|es| - 1]];
    }
  }

  /** On a sorted stack, eviction cuts off a prefix: exactly the entries that are too old. */
  lemma {:induction false} KeepIsSuffix(es: seq<Entry>, now: int, timeout: int) returns (n: nat)
    requires Sorted(es, now)
    ensures n <= |es| && Keep(es, now, timeout) == es[n..]
    ensures forall i | 0 <= i < n :: now - es[i].lastUsed > timeout
    ensures forall i | n <= i < |es| :: now - es[i].lastUsed <= timeout
  {
    if es == [] {
      n := 0;
    } else {
      var last := |es| - 1;
      n := KeepIsSuffix(es[..last], now, timeout);
      if now - es[last].lastUsed > timeout {
        n := |es|;
      } else {
        assert es[..last][n..] + [es[last]] == es[n..];
      }
    }
  }

  /** Taking browsers off the stacks and closing them keeps every browser in one place. */
  lemma RemovedOwned(s: State, t: State, gone: seq<Browser>)
    requires Owned(s) && Removes(s.idle, t.idle, gone)
    requires t.closeLog == s.closeLog + gone && t.clients == s.clients && t.created == s.created
    ensures Owned(t)
  {
    forall b: Browser ensures Places(t, b) == if b < |t.created| then 1 else 0 {
      assert Places(s, b) == if b < |s.created| then 1 else 0;
    }
  }

  /** Closing n idle browsers keeps the books: total follows for evictions, a tally for Close. */
  lemma RemovedBooks(total: int, inUse: int, idle: nat, clients: seq<Phase>, counts: map<Tally, nat>, n: nat)
    requires Adds(total, inUse, idle + n, clients, counts)
    ensures Adds(total - n, inUse, idle, clients, Raise(counts, EvictTotal, n))
    ensures Adds(total, inUse, idle, clients, Raise(counts, DrainedIdle, n))
  {
  }

  lemma EvictKinds(s: State, evicted: seq<Browser>)
    requires Kinds(s)
    ensures Kinds(Apply(s, Evict(evicted)))
  {
    var t := Apply(s, Evict(evicted));
    forall k, e | k in t.idle && e in t.idle[k]
      ensures KindOf(t, e.browser) == k && e.browser < |t.created|
    {
      KeepMembers(s.idle[k], s.now, s.idleTimeout, e);
    }
    assert forall i | 0 <= i < |t.clients| :: KindOk(s, t.clients[i]);
  }

  lemma EvictAged(s: State, evicted: seq<Browser>)
    requires Aged(s)
    ensures Aged(Apply(s, Evict(evicted)))
  {
    forall k | k in s.idle ensures Sorted(Keep(s.idle[k], s.now, s.idleTimeout), s.now) {
      var n := KeepIsSuffix(s.idle[k], s.now, s.idleTimeout);
    }
  }

  lemma EvictFlags(s: State, evicted: seq<Browser>)
    requires Capped(s) && Closing(s) && Locks(s)
    ensures var t := Apply(s, Evict(evicted)); Capped(t) && Closing(t) && Locks(t)
  {
    assert s.idle == map[] ==> KeepAll(s.idle, s.now, s.idleTimeout) == map[];
  }

  lemma EvictOwned(s: State, evicted: seq<Browser>)
    requires Owned(s) && Removes(s.idle, KeepAll(s.idle, s.now, s.idleTimeout), evicted)
    ensures Owned(Apply(s, Evict(evicted)))
  {
    RemovedOwned(s, Apply(s, Evict(evicted)), evicted);
  }

  lemma EvictBooks(s: State, evicted: seq<Browser>)
    requires Books(s)
    requires IdleCount(All, s.idle) == IdleCount(All, KeepAll(s.idle, s.now, s.idleTimeout)) + |evicted|
    ensures Books(Apply(s, Evict(evicted)))
  {
    var idle := KeepAll(s.idle, s.now, s.idleTimeout);
    RemovedBooks(s.total, s.inUse, IdleCount(All, idle), s.clients, s.counts, |evicted|);
  }

  lemma EvictInv(s: State, evicted: seq<Browser>)
    requires Inv(s) && Removes(s.idle, KeepAll(s.idle, s.now, s.idleTimeout), evicted)
    ensures Inv(Apply(s, Evict(evicted)))
  {
    EvictOwned(s, evicted);
    EvictKinds(s, evicted);
    EvictAged(s, evicted);
    EvictBooks(s, evicted);
    EvictFlags(s, evicted);
  }

  // ---- Close ----

  lemma DrainOwned(s: State, closing: seq<Browser>)
    requires Owned(s) && Removes(s.idle, map[], closing)
    ensures Owned(Apply(s, Drain(closing)))
  {
    RemovedOwned(s, Apply(s, Drain(closing)), closing);
  }

  lemma DrainBooks(s: State, closing: seq<Browser>)
    requires Books(s) && IdleCount(All, s.idle) == |closing|
    ensures Books(Apply(s, Drain(closing)))
  {
    RemovedBooks(s.total, s.inUse, 0, s.clients, s.counts, |closing|);
  }

  lemma DrainFlags(s: State, closing: seq<Browser>)
    requires s.closed && Kinds(s) && Capped(s) && Closing(s) && Locks(s)
    ensures var t := Apply(s, Drain(closing)); Kinds(t) && Capped(t) && Closing(t) && Locks(t) && Aged(t)
  {
    assert forall i | 0 <= i < |s.clients| :: KindOk(s, s.clients[i]);
  }

  lemma DrainInv(s: State, closing: seq<Browser>)
    requires Inv(s) && s.closed && Removes(s.idle, map[], closing)
    ensures Inv(Apply(s, Drain(closing)))
  {
    DrainOwned(s, closing);
    DrainBooks(s, closing);
    DrainFlags(s, closing);
  }

  // ---- setting the closed flag, registering a provider, time ----

  lemma QuietFlags(s: State, a: Action)
    requires (a.SetClosed? || a.Register? || (a.Tick? && s.now <= a.now))
    requires Kinds(s) && Capped(s) && Closing(s) && Locks(s) && Aged(s)
    ensures var t := Apply(s, a); Kinds(t) && Capped(t) && Closing(t) && Locks(t) && Aged(t)
  {
    assert forall i | 0 <= i < |s.clients| :: KindOk(s, s.clients[i]);
    assert forall k | k in s.idle :: Sorted(s.idle[k], s.now);
  }

  lemma QuietInv(s: State, a: Action)
    requires Inv(s) && (a.SetClosed? || a.Register? || (a.Tick? && s.now <= a.now))
    ensures Inv(Apply(s, a))
  {
    var t := Apply(s, a);
    QuietFlags(s, a);
    RemovedOwned(s, t, []);
    assert Books(t);
  }

  // ---- all of it ----

  lemma StepInv(s: State, a: Action)
    requires Inv(s) && Enabled(s, a)
    ensures Inv(Apply(s, a))
  {
    match a
    case Client(i, move) => MoveInv(s, i, move);
    case Evict(evicted) => EvictInv(s, evicted);
    case Drain(closing) => DrainInv(s, closing);
    case _ => QuietInv(s, a);
  }

  /** Every state of every run, from a new pool, satisfies the invariant. */
  lemma {:induction false} RunInv(s: State, acts: seq<Action>)
    requires Inv(s) && CanRun(s, acts)
    ensures Inv(Run(s, acts))
    decreases |acts|
  {
    if acts != [] {
      StepInv(s, acts[0]);
      RunInv(Apply(s, acts[0]), acts[1..]);
    }
  }
}
