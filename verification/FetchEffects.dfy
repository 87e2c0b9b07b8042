/** What becomes of the browsers of one uninterrupted FetchWithFallback. */
module FetchEffects {
  import opened ConnectionErrors
  import opened PoolProtocol
  import opened PoolTheorems
  import opened PoolCalls
  import opened PoolRounds
  import opened PoolEffects
  import opened FetchLoop
  import opened Options

  lemma ReachableLeads(s: State, t: State)
    requires Reachable(s) && Leads(s, t)
    ensures Reachable(t)
  {
    var s0, acts :| Init(s0) && CanRun(s0, acts) && Run(s0, acts) == s;
    var more :| CanRun(s, more) && Run(s, more) == t;
    RunConcat(s0, acts, more);
  }

  /** The round of a pass, up to its Release. */
  lemma RoundHolds(s: State, i: nat, kind: Kind, r: Round)
    requires Reachable(s) && Ready(s, i) && s.now == r.time && Acquired(SetupOf(s), FieldsOf(s), kind, r).Some?
    ensures var w := AcquireWaitCall(s, i, kind, r);
      && Reachable(w) && !w.closed && |w.clients| == |s.clients|
      && w.clients[i] == Holding(kind, Acquired(SetupOf(s), FieldsOf(s), kind, r).value)
      && With(s, RoundFields(SetupOf(s), FieldsOf(s), kind, r)) == ReleaseCall(w, i, r.broken)
  {
    AcquireWaitLeads(s, i, kind, r);
    ReachableLeads(s, AcquireWaitCall(s, i, kind, r));
    AcquireInUse(SetupOf(s), FieldsOf(s), kind, r);
    ThenRelease(s, i, kind, r);
  }

  /** The browser of a round is closed by its end exactly if it is released as broken, and idle exactly if not. */
  lemma RoundEffect(s: State, i: nat, kind: Kind, r: Round)
    requires Reachable(s) && Ready(s, i) && s.now == r.time && Acquired(SetupOf(s), FieldsOf(s), kind, r).Some?
    ensures var t := With(s, RoundFields(SetupOf(s), FieldsOf(s), kind, r));
      var b := Acquired(SetupOf(s), FieldsOf(s), kind, r).value;
      && (b in t.closeLog <==> r.broken)
      && (IsIdle(t, b) <==> !r.broken)
  {
    RoundHolds(s, i, kind, r);
    ReleaseEffect(AcquireWaitCall(s, i, kind, r), i, r.broken);
  }

  lemma PassStart(p: Plan, s: State, i: nat, chain: seq<Kind>, calls: seq<Turn>, j: nat)
    requires Reachable(s) && Ready(s, i) && j < |chain| && Fits(p, SetupOf(s), chain, calls) && Forward(s, calls)
    ensures var u := StateAt(p, s, calls, j).(now := calls[j].time);
      && Reachable(u) && Ready(u, i) && SetupOf(u) == SetupOf(s) && FieldsOf(u) == PoolAt(p, FieldsOf(s), j)
      && With(u, p.step(FieldsOf(u), j)) == StateAt(p, s, calls, j + 1)
  {
    var t := StateAt(p, s, calls, j);
    CallIsARun(p, s, i, chain, calls, j);
    assert TimesOf(s, calls)[j] <= TimesOf(s, calls)[j + 1];
    LeadsBy(t, Tick(calls[j].time));
    ReachableLeads(s, t);
    ReachableLeads(t, t.(now := calls[j].time));
  }

  /**
   Right after pass j its browser is closed exactly if Release was given a connection
   error, and idle exactly if not.
   */
  lemma PassEffect(p: Plan, s: State, i: nat, chain: seq<Kind>, calls: seq<Turn>, j: nat)
    requires Reachable(s) && Ready(s, i) && j < |chain| && Fits(p, SetupOf(s), chain, calls) && Forward(s, calls)
    requires p.pass(PoolAt(p, FieldsOf(s), j), j).Visited?
    ensures var b := p.pass(PoolAt(p, FieldsOf(s), j), j).browser;
      var t := StateAt(p, s, calls, j + 1);
      && (b in t.closeLog <==> calls[j].broken)
      && (IsIdle(t, b) <==> !calls[j].broken)
  {
    var u := StateAt(p, s, calls, j).(now := calls[j].time);
    PassStart(p, s, i, chain, calls, j);
    assert FitsAt(p, SetupOf(s), chain[j], calls[j], j);
    assert p.pass(FieldsOf(u), j) == PassIn(SetupOf(s), FieldsOf(u), chain[j], calls[j]);
    assert p.step(FieldsOf(u), j) == RoundFields(SetupOf(s), FieldsOf(u), chain[j], RoundOf(calls[j]));
    RoundEffect(u, i, chain[j], RoundOf(calls[j]));
  }

  lemma ClosedLater(s: State, t: State, b: Browser)
    requires Reachable(s) && b in s.closeLog && Leads(s, t)
    ensures b in t.closeLog && !IsIdle(t, b)
  {
    var acts :| CanRun(s, acts) && Run(s, acts) == t;
    ClosedForGood(s, b, acts);
    assert PoolProtocol.Times(t.closeLog, b) > 0;
  }

  /** What a pass has closed is closed after every later pass. */
  lemma ClosedOnward(p: Plan, s: State, i: nat, chain: seq<Kind>, calls: seq<Turn>, m: nat, n: nat, b: Browser)
    requires Reachable(s) && Ready(s, i) && m <= n <= |chain| && Fits(p, SetupOf(s), chain, calls) && Forward(s, calls)
    requires b in StateAt(p, s, calls, m).closeLog
    ensures b in StateAt(p, s, calls, n).closeLog && !IsIdle(StateAt(p, s, calls, n), b)
  {
    CallIsARun(p, s, i, chain, calls, m);
    ReachableLeads(s, StateAt(p, s, calls, m));
    PassesAreARun(p, s, i, chain, calls, m, n);
    ClosedLater(StateAt(p, s, calls, m), StateAt(p, s, calls, n), b);
  }

  /** A pass whose browser was released as broken. */
  lemma BrokenOnward(p: Plan, s: State, i: nat, chain: seq<Kind>, calls: seq<Turn>, j: nat, n: nat)
    requires Reachable(s) && Ready(s, i) && j < n <= |chain| && Fits(p, SetupOf(s), chain, calls) && Forward(s, calls)
    requires p.pass(PoolAt(p, FieldsOf(s), j), j).Visited? && calls[j].broken
    ensures var b := p.pass(PoolAt(p, FieldsOf(s), j), j).browser;
      var t := StateAt(p, s, calls, n);
      b in t.closeLog && !IsIdle(t, b)
  {
    PassEffect(p, s, i, chain, calls, j);
    ClosedOnward(p, s, i, chain, calls, j + 1, n, p.pass(PoolAt(p, FieldsOf(s), j), j).browser);
  }

  /** When that is: by the visit and the URL. */
  lemma BrokenTurn(graphic: char -> bool, url: string, calls: seq<Call>, j: nat)
    requires j < |calls|
    ensures TurnsOf(graphic, url, calls)[j].broken <==>
      IsConnectionError(Cause(calls[j].visit)) || (calls[j].visit.navigate.Some? && UrlMatches(graphic, url))
  {
    assert TurnsOf(graphic, url, calls)[j] == TurnOf(graphic, url, calls[j]);
    TryFetchConnection(graphic, url, calls[j].visit);
  }

  /**
   A pass whose visit fails first with a connection error: its browser is closed, and in
   no idle stack at any later point of the call.
   */
  lemma BrokenPassNeverIdle(p: Plan, s: State, i: nat, chain: seq<Kind>, graphic: char -> bool, url: string,
      calls: seq<Call>, j: nat, n: nat)
    requires Reachable(s) && Ready(s, i) && j < n <= |chain|
    requires Fits(p, SetupOf(s), chain, TurnsOf(graphic, url, calls)) && Forward(s, TurnsOf(graphic, url, calls))
    requires p.pass(PoolAt(p, FieldsOf(s), j), j).Visited? && IsConnectionError(Cause(calls[j].visit))
    ensures var b := p.pass(PoolAt(p, FieldsOf(s), j), j).browser;
      var t := StateAt(p, s, TurnsOf(graphic, url, calls), n);
      b in t.closeLog && !IsIdle(t, b)
  {
    BrokenTurn(graphic, url, calls, j);
    BrokenOnward(p, s, i, chain, TurnsOf(graphic, url, calls), j, n);
  }

  /** And after any other visit it is idle again, ready for the next call. */
  lemma GoodPassIsIdle(p: Plan, s: State, i: nat, chain: seq<Kind>, graphic: char -> bool, url: string,
      calls: seq<Call>, j: nat)
    requires Reachable(s) && Ready(s, i) && j < |chain|
    requires Fits(p, SetupOf(s), chain, TurnsOf(graphic, url, calls)) && Forward(s, TurnsOf(graphic, url, calls))
    requires p.pass(PoolAt(p, FieldsOf(s), j), j).Visited?
    requires !IsConnectionError(Cause(calls[j].visit)) && (calls[j].visit.navigate.Some? ==> !UrlMatches(graphic, url))
    ensures var b := p.pass(PoolAt(p, FieldsOf(s), j), j).browser;
      IsIdle(StateAt(p, s, TurnsOf(graphic, url, calls), j + 1), b)
  {
    BrokenTurn(graphic, url, calls, j);
    PassEffect(p, s, i, chain, TurnsOf(graphic, url, calls), j);
  }
}
