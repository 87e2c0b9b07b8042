/** After Close has set the flag: who still gets in, and what becomes of a browser that is released. */
module PoolClosing {
  import opened Sums
  import opened PoolProtocol
  import opened PoolInvariant
  import opened PoolTheorems

  // ---- nobody new is admitted ----

  lemma OutsideStep(s: State, a: Action, i: nat)
    requires s.closed && i < |s.clients| && s.clients[i].Outside? && Enabled(s, a)
    ensures var t := Apply(s, a); t.closed && |t.clients| == |s.clients| && t.clients[i].Outside?
  {
  }

  /** A client that is outside when the flag is set stays outside: its Acquires return ErrPoolClosed. */
  lemma {:induction false} StaysOutside(s: State, acts: seq<Action>, i: nat)
    requires s.closed && i < |s.clients| && s.clients[i].Outside? && CanRun(s, acts)
    ensures var t := Run(s, acts); t.closed && |t.clients| == |s.clients| && t.clients[i].Outside?
    decreases |acts|
  {
    if acts != [] {
      OutsideStep(s, acts[0], i);
      StaysOutside(Apply(s, acts[0]), acts[1..], i);
    }
  }

  /** Past the closed check, and AcquireTotal is not raised yet. */
  function Uncounted(p: Phase): nat {
    if p.Admitted? then 1 else 0
  }

  /** In an Acquire that may still call Create. */
  function Creators(p: Phase): nat {
    match p
    case Admitted(_) => 1
    case Queued(_) => 1
    case Looping(_, polling) => if polling then 0 else 1
    case Pinging(_, polling, _) => if polling then 0 else 1
    case Creating(_) => 1
    case _ => 0
  }

  lemma LateMove(s: State, i: nat, move: Move)
    requires s.closed && i < |s.clients| && MoveEnabled(s, i, move)
    ensures var e := MoveEffect(s, i, move);
      && Uncounted(e.next) + (if e.raised == One(AcquireTotal) then 1 else 0) == Uncounted(s.clients[i])
      && Creators(e.next) + (if e.creates then 1 else 0) <= Creators(s.clients[i])
  {
  }

  lemma LateStep(s: State, a: Action)
    requires s.closed && Enabled(s, a)
    ensures var t := Apply(s, a);
      && t.closed
      && Count(t.counts, AcquireTotal) + SumOf(Uncounted, t.clients)
         == Count(s.counts, AcquireTotal) + SumOf(Uncounted, s.clients)
      && |t.created| + SumOf(Creators, t.clients) <= |s.created| + SumOf(Creators, s.clients)
  {
    if a.Client? {
      LateMove(s, a.i, a.move);
      var next := MoveEffect(s, a.i, a.move).next;
      SumOfUpdate(Uncounted, s.clients, a.i, next);
      SumOfUpdate(Creators, s.clients, a.i, next);
    }
  }

  /**
   After the flag is set AcquireTotal rises by the clients that had passed the check and
   were not counted, and by no other; and each Acquire under way creates at most one more
   browser.
   */
  lemma {:induction false} LateAcquires(s: State, acts: seq<Action>)
    requires s.closed && CanRun(s, acts)
    ensures var t := Run(s, acts);
      && Count(t.counts, AcquireTotal) + SumOf(Uncounted, t.clients)
         == Count(s.counts, AcquireTotal) + SumOf(Uncounted, s.clients)
      && |t.created| + SumOf(Creators, t.clients) <= |s.created| + SumOf(Creators, s.clients)
    decreases |acts|
  {
    if acts != [] {
      LateStep(s, acts[0]);
      LateAcquires(Apply(s, acts[0]), acts[1..]);
    }
  }

  // ---- an error-free release ----

  /** Client i is past the closed check with a browser that is to go back. */
  predicate GoingBack(s: State, i: nat, b: Browser) {
    i < |s.clients| && (s.clients[i] == Leaving(b, false) || s.clients[i] == Returning(b))
  }

  /** The browser is on top of the stack of its own kind, with the time of its release. */
  predicate BackOnTop(s: State, b: Browser) {
    b < |s.created| && Stack(s.idle, s.created[b]) != []
    && var st := Stack(s.idle, s.created[b]); st[|st| - 1] == Entry(b, s.now)
  }

  lemma GoingBackStep(s: State, a: Action, i: nat, b: Browser)
    requires GoingBack(s, i, b) && b < |s.created| && Enabled(s, a)
    ensures var t := Apply(s, a); t.crashed || GoingBack(t, i, b) || BackOnTop(t, b)
    ensures b < |Apply(s, a).created|
  {
  }

  /**
   Once an error-free release is past the closed check, its browser is put back: on any
   run the client is still on its way there, or at some point the browser was on top of
   the stack of its kind, unless the append to the emptied stacks panicked.
   */
  lemma {:induction false} GoodGoesBack(s: State, acts: seq<Action>, i: nat, b: Browser)
    requires GoingBack(s, i, b) && b < |s.created| && CanRun(s, acts)
    ensures
      || Run(s, acts).crashed || GoingBack(Run(s, acts), i, b)
      || exists n | 0 <= n <= |acts| :: CanRun(s, acts[..n]) && BackOnTop(Run(s, acts[..n]), b)
    decreases |acts|
  {
    if acts != [] {
      var a, rest := acts[0], acts[1..];
      var t := Apply(s, a);
      GoingBackStep(s, a, i, b);
      if BackOnTop(t, b) {
        CanRunAfter(s, a, []);
        assert acts[..1] == [a] + [];
      } else if t.crashed {
        assert rest == [];
      } else {
        GoodGoesBack(t, rest, i, b);
        if n :| 0 <= n <= |rest| && CanRun(t, rest[..n]) && BackOnTop(Run(t, rest[..n]), b) {
          CanRunAfter(s, a, rest[..n]);
          assert acts[..n + 1] == [a] + rest[..n];
        }
      }
    }
  }
}
