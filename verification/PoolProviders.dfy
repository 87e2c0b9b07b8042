/** Who gets a browser at all: the clients that asked for a registered type. */
module PoolProviders {
  import opened PoolProtocol
  import opened PoolInvariant
  import opened PoolTheorems
  import opened PoolSection

  /** A call that has found its provider, or a browser in its client's hands before the Release. */
  predicate Served(p: Phase) {
    || (p.Looping? && p.polling) || p.Pinging? || p.Waiting? || p.Creating? || p.Created? || p.CreateCounted?
    || p.Reused? || p.ReuseCounted? || p.Holding?
  }

  /** All of those asked for a type that is registered, and so was every browser ever created. */
  ghost predicate Registered(s: State) {
    && (forall i | 0 <= i < |s.clients| && Served(s.clients[i]) :: s.clients[i].kind in s.providers)
    && forall b | 0 <= b < |s.created| :: s.created[b] in s.providers
  }

  lemma MoveRegistered(s: State, i: nat, move: Move)
    requires i < |s.clients| && MoveEnabled(s, i, move)
    requires Served(s.clients[i]) ==> s.clients[i].kind in s.providers
    ensures var e := MoveEffect(s, i, move);
      && (Served(e.next) ==> e.next.kind in s.providers)
      && (e.creates ==> e.next.Created? && e.next.kind in s.providers)
  {
  }

  lemma StepRegistered(s: State, a: Action)
    requires Registered(s) && Enabled(s, a)
    ensures Registered(Apply(s, a))
  {
    if a.Client? { MoveRegistered(s, a.i, a.move); }
  }

  lemma {:induction false} RunRegistered(s: State, acts: seq<Action>)
    requires Registered(s) && CanRun(s, acts)
    ensures Registered(Run(s, acts))
    decreases |acts|
  {
    if acts != [] {
      StepRegistered(s, acts[0]);
      RunRegistered(Apply(s, acts[0]), acts[1..]);
    }
  }

  /** In every reachable state only clients that asked for a registered type wait for, create or hold a browser. */
  lemma RegisteredOnly(s: State)
    requires Reachable(s)
    ensures Registered(s)
  {
    var s0, acts :| Init(s0) && CanRun(s0, acts) && Run(s0, acts) == s;
    RunRegistered(s0, acts);
  }

  /** And only an Acquire that finds no provider of its type when it has the mutex fails for want of one. */
  lemma NotFoundOnly(s: State, i: nat, acts: seq<Action>)
    requires Reachable(s) && Enabled(s, Client(i, TakeLock))
    requires var t := Apply(s, Client(i, TakeLock)); CanRun(t, acts) && StaysInside(t, i, acts)
    requires Enabled(Run(Apply(s, Client(i, TakeLock)), acts), Client(i, NoProvider))
    ensures s.clients[i].Queued? && s.clients[i].kind !in s.providers
  {
    var t := Apply(s, Client(i, TakeLock));
    ReachableInv(s);
    StepInv(s, Client(i, TakeLock));
    StaysTheSame(t, i, acts);
  }
  /** Inside Acquire or waitForInstance, past the closed check. */
  predicate InAcquireCall(p: Phase) {
    || p.Admitted? || p.Queued? || p.Looping? || p.Pinging? || p.Waiting? || p.Creating? || p.Undoing? || p.Failing?
    || p.Created? || p.CreateCounted? || p.Reused? || p.ReuseCounted?
  }

  /** How an Acquire past the closed check comes back. */
  predicate ComesBack(p: Phase, q: Phase) {
    && (q.Outside? || q.Holding?)
    && (q.Outside? ==> p.Failing? || p.Waiting?)
    && (q.Holding? ==> p.CreateCounted? || p.ReuseCounted? || (p.Pinging? && p.polling))
  }

  lemma MoveComesBack(s: State, i: nat, move: Move)
    requires i < |s.clients| && MoveEnabled(s, i, move) && InAcquireCall(s.clients[i])
    ensures var q := MoveEffect(s, i, move).next; InAcquireCall(q) || ComesBack(s.clients[i], q)
  {
  }

  /** Without a browser only by counting a failure or from its wait; with one only after counting it or from a poll. */
  lemma HowAcquireReturns(s: State, a: Action, i: nat)
    requires Enabled(s, a) && i < |s.clients| && InAcquireCall(s.clients[i])
    requires !InAcquireCall(Apply(s, a).clients[i])
    ensures ComesBack(s.clients[i], Apply(s, a).clients[i])
  {
    if a.Client? && a.i == i { MoveComesBack(s, i, a.move); }
  }
}
