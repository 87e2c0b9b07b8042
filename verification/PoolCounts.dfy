/** Sums over clients and over idle slots, and how one update changes them. */
module PoolCounts {
  import opened Sums
  import opened PoolProtocol

  /** The quantities in which a phase can take part. */
  datatype Weight =
    | InUse      // inUse was raised for it and not lowered yet
    | Spare      // counted in total, in no idle stack and not in use
    | Reserved   // total was raised and CreateTotal not yet
    | Acquiring  // AcquireTotal was raised and the outcome is not counted yet
    | Counted    // AcquireSuccess was raised and CreateTotal or ReuseTotal not yet
    | Releasing  // ReleaseTotal was raised and the release is not over
    | Hands      // has some browser in its hands
    | Holds(browser: Browser)

  /** A phase's part in each quantity, one row a phase. */
  datatype Shares = Shares(
    inUse: nat, spare: nat, reserved: nat, acquiring: nat, counted: nat, releasing: nat)

  function Share(p: Phase): Shares {
    match p
    case Outside =>            Shares(0, 0, 0, 0, 0, 0)
    case Admitted(_) =>        Shares(0, 0, 0, 0, 0, 0)
    case Queued(_) =>          Shares(0, 0, 0, 1, 0, 0)
    case Looping(_, _) =>      Shares(0, 0, 0, 1, 0, 0)
    case Pinging(_, _, _) =>   Shares(0, 1, 0, 1, 0, 0)
    case Waiting(_) =>         Shares(0, 0, 0, 1, 0, 0)
    case Creating(_) =>        Shares(1, 0, 1, 1, 0, 0)
    case Undoing =>            Shares(1, 0, 1, 1, 0, 0)
    case Failing =>            Shares(0, 0, 0, 1, 0, 0)
    case Created(_, _) =>      Shares(1, 0, 1, 1, 0, 0)
    case CreateCounted(_, _) => Shares(1, 0, 1, 0, 1, 0)
    case Reused(_, _) =>       Shares(1, 0, 0, 1, 0, 0)
    case ReuseCounted(_, _) => Shares(1, 0, 0, 0, 1, 0)
    case Holding(_, _) =>      Shares(1, 0, 0, 0, 0, 0)
    case Discarding(_) =>      Shares(1, 0, 0, 0, 0, 0)
    case Leaving(_, _) =>      Shares(1, 0, 0, 0, 0, 0)
    case Breaking(_) =>        Shares(1, 0, 0, 0, 0, 1)
    case Broken =>             Shares(1, 0, 0, 0, 0, 1)
    case Returning(_) =>       Shares(1, 0, 0, 0, 0, 1)
    case Panicked(_) =>        Shares(0, 1, 0, 0, 0, 1)
  }

  function W(w: Weight, p: Phase): nat {
    match w
    case InUse => Share(p).inUse
    case Spare => Share(p).spare
    case Reserved => Share(p).reserved
    case Acquiring => Share(p).acquiring
    case Counted => Share(p).counted
    case Releasing => Share(p).releasing
    case Hands => if HasBrowser(p) then 1 else 0
    case Holds(b) => if HasBrowser(p) && p.browser == b then 1 else 0
  }

  function Weigh(w: Weight): Phase -> nat {
    p => W(w, p)
  }

  ghost function Sum(w: Weight, ps: seq<Phase>): nat {
    SumOf(Weigh(w), ps)
  }

  lemma Reweigh(w: Weight, ps: seq<Phase>, i: nat, p: Phase)
    requires i < |ps|
    ensures Sum(w, ps[i := p]) + W(w, ps[i]) == Sum(w, ps) + W(w, p)
  {
    SumOfUpdate(Weigh(w), ps, i, p);
  }

  lemma SumAtLeast(w: Weight, ps: seq<Phase>, i: nat)
    requires i < |ps|
    ensures Sum(w, ps) >= W(w, ps[i])
  {
    SumOfAt(Weigh(w), ps, i);
  }

  lemma SumAtLeastTwo(w: Weight, ps: seq<Phase>, i: nat, j: nat)
    requires i < j < |ps|
    ensures Sum(w, ps) >= W(w, ps[i]) + W(w, ps[j])
  {
    SumOfAtTwo(Weigh(w), ps, i, j);
  }

  lemma SumZero(w: Weight, ps: seq<Phase>)
    requires forall i | 0 <= i < |ps| :: W(w, ps[i]) == 0
    ensures Sum(w, ps) == 0
  {
    SumOfZero(Weigh(w), ps);
  }

  lemma SumPositive(w: Weight, ps: seq<Phase>) returns (i: nat)
    requires Sum(w, ps) > 0
    ensures i < |ps| && W(w, ps[i]) > 0
  {
    i := SumOfPositive(Weigh(w), ps);
  }

  lemma {:induction false} IdleCountAt(pick: Pick, idle: map<Kind, seq<Entry>>, k: Kind)
    requires k in idle
    ensures IdleCount(pick, idle) == SlotCount(pick, idle[k]) + IdleCount(pick, idle - {k})
    decreases |idle|
  {
    var c := AnyKey(idle);
    if c != k {
      IdleCountAt(pick, idle - {c}, k);
      IdleCountAt(pick, idle - {k}, c);
      assert idle - {c} - {k} == idle - {k} - {c};
    }
  }

  lemma IdleCountUpdate(pick: Pick, idle: map<Kind, seq<Entry>>, k: Kind, es: seq<Entry>)
    ensures IdleCount(pick, idle[k := es]) + SlotCount(pick, Stack(idle, k))
         == IdleCount(pick, idle) + SlotCount(pick, es)
  {
    var n := idle[k := es];
    IdleCountAt(pick, n, k);
    if k in idle {
      IdleCountAt(pick, idle, k);
      assert n - {k} == idle - {k};
    } else {
      assert n - {k} == idle;
    }
  }

  /** Pushing or popping one entry changes each count by that entry's share. */
  lemma SlotCountPush(pick: Pick, es: seq<Entry>, e: Entry)
    ensures SlotCount(pick, es + [e]) == SlotCount(pick, es) + SlotCount(pick, [e])
    ensures SlotCount(pick, [e]) == if pick == All || pick.browser == e.browser then 1 else 0
  {
    assert (es + [e])[..|es|] == es;
    assert [e][..0] == [];
  }

  lemma {:induction false} SlotCountAtLeast(es: seq<Entry>, i: nat)
    requires i < |es|
    ensures SlotCount(Only(es[i].browser), es) >= 1
  {
    if i < |es| - 1 { SlotCountAtLeast(es[..|es| - 1], i); }
  }

  lemma {:induction false} SlotCountTwice(es: seq<Entry>, i: nat, j: nat)
    requires i < j < |es| && es[i].browser == es[j].browser
    ensures SlotCount(Only(es[i].browser), es) >= 2
  {
    if j < |es| - 1 { SlotCountTwice(es[..|es| - 1], i, j); } else { SlotCountAtLeast(es[..j], i); }
  }

  lemma {:induction false} SlotCountPositive(es: seq<Entry>, b: Browser) returns (i: nat)
    requires SlotCount(Only(b), es) > 0
    ensures i < |es| && es[i].browser == b
  {
    if es[|es| - 1].browser == b { i := |es| - 1; } else { i := SlotCountPositive(es[..|es| - 1], b); }
  }

  lemma {:induction false} IdleCountPositive(idle: map<Kind, seq<Entry>>, b: Browser) returns (k: Kind, i: nat)
    requires IdleCount(Only(b), idle) > 0
    ensures k in idle && i < |idle[k]| && idle[k][i].browser == b
    decreases |idle|
  {
    k := AnyKey(idle);
    if SlotCount(Only(b), idle[k]) > 0 {
      i := SlotCountPositive(idle[k], b);
    } else {
      k, i := IdleCountPositive(idle - {k}, b);
    }
  }

  /** Stats adds up the stack lengths; that sum counts every idle slot once. */
  lemma {:induction false} IdleCountIsSum(idle: map<Kind, seq<Entry>>)
    ensures IdleCount(All, idle) == MapSum(map k | k in idle :: |idle[k]|)
    decreases |idle|
  {
    var lens: map<Kind, nat> := map k | k in idle :: |idle[k]|;
    if idle != map[] {
      var k := AnyKey(idle);
      IdleCountIsSum(idle - {k});
      MapSumAt(lens, k);
      assert lens - {k} == map j | j in idle - {k} :: |(idle - {k})[j]|;
    }
  }
}
