/**
browser.Pool as an object: its fields, updated in place by whole calls that
nobody interrupts. Each call is proved equal to the run of the step system that
PoolCalls gives for it.
*/
module PoolObject {
  import opened Sums
  import opened PoolProtocol
  import opened PoolCounts
  import opened PoolCalls
  import opened PoolRounds
  import opened Options

  /** The browsers of the entries that Keep leaves out. */
  function Dropped(es: seq<Entry>, now: int, timeout: int): seq<Browser> {
    if es == [] then []
    else if now - es[|es| - 1].lastUsed > timeout then Dropped(es[..|es| - 1], now, timeout) + [es[|es| - 1].browser]
    else Dropped(es[..|es| - 1], now, timeout)
  }

  lemma TimesPush(bs: seq<Browser>, x: Browser, b: Browser)
    ensures Times(bs + [x], b) == Times(bs, b) + if b == x then 1 else 0
  {
  }

  /** Every entry is kept or dropped, once. */
  lemma {:induction false} KeepOrDrop(es: seq<Entry>, now: int, timeout: int, b: Browser)
    ensures |es| == |Keep(es, now, timeout)| + |Dropped(es, now, timeout)|
    ensures SlotCount(Only(b), es) == SlotCount(Only(b), Keep(es, now, timeout)) + Times(Dropped(es, now, timeout), b)
  {
    if es != [] {
      var n := |es| - 1;
      KeepOrDrop(es[..n], now, timeout, b);
      if now - es[n].lastUsed > timeout {
        TimesPush(Dropped(es[..n], now, timeout), es[n].browser, b);
      } else {
        SlotCountPush(Only(b), Keep(es[..n], now, timeout), es[n]);
      }
    }
  }

  /**
   The inner loop of evictIdle. alive starts as entries[:0], so it grows in the
   very array that the loop is ranging over.
   */
  method Compact(a: array<Entry>, now: int, timeout: int) returns (alive: nat, evicted: seq<Browser>)
    modifies a
    ensures alive <= a.Length
    ensures a[..alive] == Keep(old(a[..]), now, timeout)
    ensures evicted == Dropped(old(a[..]), now, timeout)
  {
    ghost var was := a[..];
    alive, evicted := 0, [];
    for i := 0 to a.Length
      invariant alive <= i
      invariant a[..alive] == Keep(was[..i], now, timeout)
      invariant evicted == Dropped(was[..i], now, timeout)
      invariant forall j | i <= j < a.Length :: a[j] == was[j]
    {
      var entry := a[i];
      assert was[..i + 1][..i] == was[..i];
      if now - entry.lastUsed > timeout {
        evicted := evicted + [entry.browser];
      } else {
        ghost var kept := a[..alive];
        a[alive] := entry;
        alive := alive + 1;
        assert a[..alive] == kept + [entry];
      }
    }
    assert was[..a.Length] == was;
  }

  class Pool {
    const maxInstances: int
    const idleTimeout: int
    var providers: set<Kind>
    var instances: map<Kind, seq<Entry>>
    var isNil: bool                        // instances was set to nil
    var inUse: int
    var total: int
    var closed: bool
    var counts: map<Tally, nat>
    var created: seq<Kind>                 // the type of every browser made so far
    ghost var closeLog: seq<Browser>

    constructor (maxInstances: int, idleTimeout: int)
      ensures forall clients, now | (forall i | 0 <= i < |clients| :: clients[i] == Outside) :: Init(View(clients, now))
      ensures this.maxInstances == maxInstances && this.idleTimeout == idleTimeout
    {
      this.maxInstances, this.idleTimeout := maxInstances, idleTimeout;
      providers, instances, isNil := {}, map[], false;
      inUse, total, closed, counts := 0, 0, false, map[];
      created, closeLog := [], [];
    }

    /** The object as a state of the step system: unlocked, with the given clients. */
    ghost function View(clients: seq<Phase>, now: int): State
      reads this
    {
      State(maxInstances, idleTimeout, providers, instances, inUse, total, closed, isNil, false, Free,
            clients, now, created, closeLog, counts)
    }

    ghost function Settings(): Setup
      reads this
    {
      Setup(closed, providers, maxInstances)
    }

    ghost function Content(): Fields
      reads this
    {
      Fields(instances, total, inUse, counts, created, closeLog)
    }

    /**
     The loop that Acquire and waitForInstance share: pop, ping, and discard what
     does not answer. alive are the browsers that answer.
     */
    method PopLive(k: Kind, alive: set<Browser>) returns (found: bool, browser: Browser)
      modifies this`instances, this`total, this`inUse, this`counts, this`closeLog
      ensures var st := Stack(old(instances), k);
        var n := LastAlive(st, alive);
        && found == (n > 0)
        && (found ==> browser == st[n - 1].browser)
        && Content() == AfterPops(old(Content()), k, n)
    {
      ghost var c := Content();
      ghost var st := Stack(instances, k);
      ghost var n := |st|;
      while |Stack(instances, k)| > 0
        invariant 0 <= n <= |st| && Stack(instances, k) == st[..n]
        invariant forall j | n <= j < |st| :: st[j].browser !in alive
        invariant Content() == Shed(c, k, n)
        decreases n
      {
        var entries := instances[k];
        var last := |entries| - 1;
        var entry := entries[last];
        instances := instances[k := entries[..last]];
        assert st[..n][..last] == st[..last];
        if entry.browser !in alive {
          closeLog := closeLog + [entry.browser];
          total := total - 1;
          counts := Raise(counts, EvictTotal, 1);
          ShedNext(c, k, last);
          n := last;
          continue;
        }
        LastAliveIs(st, n, alive);
        inUse := inUse + 1;
        return true, entry.browser;
      }
      LastAliveIs(st, 0, alive);
      return false, 0;
    }

    /** The slow path of Acquire: reserve, create, and undo the reservation if that fails. */
    method CreateReserved(k: Kind, creates: bool) returns (ok: bool)
      modifies this`total, this`inUse, this`counts, this`created
      ensures ok == creates
      ensures Content() == if creates then Raises(Raises(AddNew(old(Content()), k), AcquireSuccess), CreateTotal)
                           else Raises(old(Content()), AcquireFail)
    {
      total := total + 1;
      inUse := inUse + 1;
      if !creates {
        total := total - 1;
        inUse := inUse - 1;
        counts := Raise(counts, AcquireFail, 1);
        return false;
      }
      created := created + [k];
      counts := Raise(Raise(counts, AcquireSuccess, 1), CreateTotal, 1);
      return true;
    }

    /**
     Acquire. creates says whether the provider succeeds; it then returns a browser
     that was not seen before.
     */
    method Acquire(k: Kind, alive: set<Browser>, creates: bool) returns (o: Outcome)
      modifies this`instances, this`total, this`inUse, this`counts, this`created, this`closeLog
      ensures o == AcquireOutcome(Settings(), old(Content()), k, alive, creates)
      ensures Content() == AcquireFields(old(Content()), k, alive, o)
    {
      if closed {
        return PoolClosed;
      }
      counts := Raise(counts, AcquireTotal, 1);
      if k !in providers {
        counts := Raise(counts, AcquireFail, 1);
        return NotFound;
      }
      var found, b := PopLive(k, alive);
      if found {
        counts := Raise(Raise(counts, AcquireSuccess, 1), ReuseTotal, 1);
        return Reuse(b);
      }
      if total >= maxInstances {
        return MustWait;
      }
      var ok := CreateReserved(k, creates);
      return if ok then New(|created| - 1) else CreateFails;
    }

    /** waitForInstance: one poll for each set of browsers that answer, until the context ends. */
    method WaitForInstance(k: Kind, polls: seq<set<Browser>>) returns (r: Option<Browser>)
      modifies this`instances, this`total, this`inUse, this`counts, this`closeLog
      ensures r == WaitFound(old(Content()), k, polls)
      ensures Content() == WaitFields(old(Content()), k, polls)
    {
      for j := 0 to |polls|
        invariant WaitFound(Content(), k, polls[j..]) == WaitFound(old(Content()), k, polls)
        invariant WaitFields(Content(), k, polls[j..]) == WaitFields(old(Content()), k, polls)
      {
        assert polls[j..][0] == polls[j] && polls[j..][1..] == polls[j + 1..];
        ghost var f := Content();
        var found, b := PopLive(k, polls[j]);
        PollPops(f, k, polls[j]);
        if found {
          counts := Raise(counts, WaitsEnded, 1);
          return Some(b);
        }
      }
      counts := Raise(counts, WaitsEnded, 1);
      return None;
    }

    /** Release of a browser at time now. broken is IsConnectionError of the caller's last error. */
    method Release(b: Browser, broken: bool, now: int)
      requires isNil ==> closed   // uninterrupted, the put-back finds instances not nil
      modifies this`instances, this`total, this`inUse, this`counts, this`closeLog
      ensures Content() == ReleaseFields(old(Content()), b, closed, broken, now)
    {
      if closed {
        closeLog := closeLog + [b];
        counts := Raise(counts, Abandoned, 1);
        return;
      }
      counts := Raise(counts, ReleaseTotal, 1);
      if broken {
        closeLog := closeLog + [b];
        inUse := inUse - 1;
        total := total - 1;
        counts := Raise(counts, BrokenReleases, 1);
        return;
      }
      inUse := inUse - 1;
      var kind := if b < |created| then created[b] else 0;
      instances := instances[kind := Stack(instances, kind) + [Entry(b, now)]];
      counts := Raise(counts, PutBacks, 1);
    }

    /** evictIdle: the range over instances may visit the kinds in any order. */
    method EvictIdle(now: int) returns (evicted: seq<Browser>)
      modifies this`instances, this`total, this`counts, this`closeLog
      ensures Removes(old(instances), instances, evicted)
      ensures instances == KeepAll(old(instances), now, idleTimeout)
      ensures total == old(total) - |evicted|
      ensures counts == Raise(old(counts), EvictTotal, |evicted|)
      ensures closeLog == old(closeLog) + evicted
    {
      ghost var was, log := instances, closeLog;
      evicted := [];
      var todo := instances.Keys;
      while todo != {}
        invariant todo <= was.Keys && instances.Keys == was.Keys
        invariant forall k | k in was ::
          instances[k] == if k in todo then was[k] else Keep(was[k], now, idleTimeout)
        invariant Removes(was, instances, evicted)
        invariant total == old(total) && counts == old(counts) && closeLog == log
        decreases todo
      {
        var k := NextKey(todo);
        todo := todo - {k};
        var entries := instances[k];
        var a := new Entry[|entries|](j requires 0 <= j < |entries| => entries[j]);
        assert a[..] == entries;
        var alive, gone := Compact(a, now, idleTimeout);
        ghost var before := instances;
        instances := instances[k := a[..alive]];
        CompactRemoves(was, before, k, now, idleTimeout, evicted);
        evicted := evicted + gone;
      }
      ghost var kept := KeepAll(was, now, idleTimeout);
      assert instances == kept by {
        assert instances.Keys == kept.Keys;
        assert forall k | k in was :: instances[k] == kept[k];
      }
      closeLog := closeLog + evicted;
      total := total - |evicted|;
      counts := Raise(counts, EvictTotal, |evicted|);
    }

    /** Close: only the first call does anything. */
    method Close() returns (closing: seq<Browser>)
      requires isNil ==> closed
      modifies this`closed, this`isNil, this`instances, this`counts, this`closeLog
      ensures closed
      ensures old(closed) ==> closing == [] && Content() == old(Content()) && isNil == old(isNil)
      ensures !old(closed) ==>
        && isNil && instances == map[]
        && Removes(old(instances), map[], closing)
        && closeLog == old(closeLog) + closing
        && counts == Raise(old(counts), DrainedIdle, |closing|)
    {
      if closed {
        return [];
      }
      closed := true;
      ghost var was := instances;
      closing := [];
      var todo := instances.Keys;
      ghost var left := instances;
      while todo != {}
        invariant left.Keys == todo && todo <= was.Keys
        invariant forall k | k in todo :: left[k] == was[k]
        invariant Removes(was, left, closing)
        invariant closed && instances == was && closeLog == old(closeLog) && counts == old(counts)
        decreases todo
      {
        var k := NextKey(todo);
        todo := todo - {k};
        var bs := Browsers(instances[k]);
        RemovesKind(was, left, k, closing, bs);
        left := left - {k};
        closing := closing + bs;
      }
      assert left == map[];
      closeLog := closeLog + closing;
      counts := Raise(counts, DrainedIdle, |closing|);
      instances := map[];
      isNil := true;
    }

    // ---- the same calls on the object seen as a state of the step system ----

    /** Acquire by client i. */
    method AcquireAs(ghost clients: seq<Phase>, ghost i: nat, ghost now: int, k: Kind, alive: set<Browser>,
        creates: bool)
      returns (o: Outcome)
      requires i < |clients| && clients[i].Outside?
      modifies this`instances, this`total, this`inUse, this`counts, this`created, this`closeLog
      ensures View(clients[i := Phased(k, o)], now) == AcquireCall(old(View(clients, now)), i, k, alive, creates)
      ensures o == AcquireOutcome(Settings(), old(Content()), k, alive, creates)
    {
      o := Acquire(k, alive, creates);
    }

    /** waitForInstance by client i. */
    method WaitAs(ghost clients: seq<Phase>, ghost i: nat, ghost now: int, k: Kind, polls: seq<set<Browser>>)
      returns (r: Option<Browser>)
      requires i < |clients|
      modifies this`instances, this`total, this`inUse, this`counts, this`closeLog
      ensures View(clients[i := Got(k, r)], now) == WaitCall(old(View(clients, now)), i, k, polls)
    {
      r := WaitForInstance(k, polls);
    }

    /** Release by client i. */
    method ReleaseAs(ghost clients: seq<Phase>, ghost i: nat, b: Browser, broken: bool, now: int)
      requires (isNil ==> closed) && i < |clients| && clients[i].Holding? && clients[i].browser == b
      modifies this`instances, this`total, this`inUse, this`counts, this`closeLog
      ensures View(clients[i := Outside], now) == ReleaseCall(old(View(clients, now)), i, broken)
    {
      Release(b, broken, now);
    }

    /** The eviction tick. */
    method EvictAs(ghost clients: seq<Phase>, now: int) returns (evicted: seq<Browser>)
      modifies this`instances, this`total, this`counts, this`closeLog
      ensures Enabled(old(View(clients, now)), Evict(evicted))
      ensures View(clients, now) == Apply(old(View(clients, now)), Evict(evicted))
      ensures Leads(old(View(clients, now)), View(clients, now))
    {
      ghost var s := View(clients, now);
      evicted := EvictIdle(now);
      EvictCallLeads(s, evicted);
    }

    method CloseAs(ghost clients: seq<Phase>, ghost now: int) returns (closing: seq<Browser>)
      requires isNil ==> closed
      modifies this`closed, this`isNil, this`instances, this`counts, this`closeLog
      ensures View(clients, now) == CloseCall(old(View(clients, now)), closing)
      ensures !old(closed) ==> Removes(old(instances), map[], closing)
    {
      closing := Close();
    }

    /** Stats: the three totals, and the length of every stack. */
    method Stats() returns (available: nat, byKind: map<Kind, nat>)
      ensures byKind == map k | k in instances :: |instances[k]|
      ensures available == MapSum(map k | k in instances :: |instances[k]|)
    {
      byKind, available := map[], 0;
      var todo := instances.Keys;
      while todo != {}
        invariant todo <= instances.Keys
        invariant byKind == map k | k in instances && k !in todo :: |instances[k]|
        invariant available == MapSum(byKind)
        decreases todo
      {
        var k := NextKey(todo);
        todo := todo - {k};
        ghost var before := byKind;
        byKind := byKind[k := |instances[k]|];
        MapSumAt(byKind, k);
        assert byKind - {k} == before;
        available := available + |instances[k]|;
      }
    }

    method Register(kind: Kind)
      modifies this`providers
      ensures providers == old(providers) + {kind}
    {
      providers := providers + {kind};
    }
  }

  function Browsers(es: seq<Entry>): (r: seq<Browser>)
    ensures |r| == |es|
    ensures forall b: Browser :: Times(r, b) == SlotCount(Only(b), es)
  {
    if es == [] then []
    else
      var init := Browsers(es[..|es| - 1]);
      var r := init + [es[|es| - 1].browser];
      assert forall b: Browser :: Times(r, b) == Times(init, b) + Times([es[|es| - 1].browser], b);
      r
  }

  lemma RemovesOne(was: map<Kind, seq<Entry>>, before: map<Kind, seq<Entry>>, k: Kind, kept: seq<Entry>,
                   evicted: seq<Browser>, gone: seq<Browser>)
    requires Removes(was, before, evicted) && k in before
    requires |before[k]| == |kept| + |gone|
    requires forall b: Browser :: SlotCount(Only(b), before[k]) == SlotCount(Only(b), kept) + Times(gone, b)
    ensures Removes(was, before[k := kept], evicted + gone)
  {
    IdleCountUpdate(All, before, k, kept);
    forall b: Browser
      ensures IdleCount(Only(b), was) == IdleCount(Only(b), before[k := kept]) + Times(evicted + gone, b)
    {
      IdleCountUpdate(Only(b), before, k, kept);
      assert Times(evicted + gone, b) == Times(evicted, b) + Times(gone, b);
    }
  }

  /** Compacting one stack removes what the compaction drops. */
  lemma CompactRemoves(was: map<Kind, seq<Entry>>, before: map<Kind, seq<Entry>>, k: Kind, now: int, timeout: int,
                       evicted: seq<Browser>)
    requires Removes(was, before, evicted) && k in before
    ensures Removes(was, before[k := Keep(before[k], now, timeout)], evicted + Dropped(before[k], now, timeout))
  {
    KeepOrDrop(before[k], now, timeout, 0);
    forall b: Browser { KeepOrDrop(before[k], now, timeout, b); }
    RemovesOne(was, before, k, Keep(before[k], now, timeout), evicted, Dropped(before[k], now, timeout));
  }

  lemma RemovesKind(was: map<Kind, seq<Entry>>, left: map<Kind, seq<Entry>>, k: Kind,
                    closing: seq<Browser>, bs: seq<Browser>)
    requires Removes(was, left, closing) && k in left && bs == Browsers(left[k])
    ensures Removes(was, left - {k}, closing + bs)
  {
    IdleCountAt(All, left, k);
    forall b: Browser
      ensures IdleCount(Only(b), was) == IdleCount(Only(b), left - {k}) + Times(closing + bs, b)
    {
      IdleCountAt(Only(b), left, k);
      assert Times(closing + bs, b) == Times(closing, b) + Times(bs, b);
    }
  }

  /** The fields after the pop loop that found entry n - 1 alive, or none when n is 0. */
  function AfterPops(f: Fields, k: Kind, n: nat): Fields
    requires n <= |Stack(f.idle, k)|
  {
    if n == 0 then Shed(f, k, 0) else TakeTopOf(Shed(f, k, n), k)
  }

  lemma PollPops(f: Fields, k: Kind, alive: set<Browser>)
    ensures var n := LastAlive(Stack(f.idle, k), alive);
      PollFields(f, k, alive) == if n > 0 then Raises(AfterPops(f, k, n), WaitsEnded) else AfterPops(f, k, n)
  {
  }

  lemma {:induction false} LastAliveIs(st: seq<Entry>, n: nat, alive: set<Browser>)
    requires n <= |st| && (n > 0 ==> st[n - 1].browser in alive)
    requires forall j | n <= j < |st| :: st[j].browser !in alive
    ensures LastAlive(st, alive) == n
  {
    if n < |st| { LastAliveIs(st[..|st| - 1], n, alive); }
  }

  lemma ShedNext(f: Fields, k: Kind, n: nat)
    requires n < |Stack(f.idle, k)|
    ensures var st := Stack(f.idle, k); var d := Shed(f, k, n + 1);
      Shed(f, k, n) == d.(idle := d.idle[k := st[..n]], total := d.total - 1,
                          counts := Raise(d.counts, EvictTotal, 1), closeLog := d.closeLog + [st[n].browser])
  {
    var st := Stack(f.idle, k);
    assert Popped(st, n) == Popped(st, n + 1) + [st[n].browser];
    assert f.closeLog + Popped(st, n) == f.closeLog + Popped(st, n + 1) + [st[n].browser];
    assert Raise(f.counts, EvictTotal, |st| - n) == Raise(Raise(f.counts, EvictTotal, |st| - n - 1), EvictTotal, 1);
  }
}
