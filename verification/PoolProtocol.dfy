/**
The browser pool as a concurrent step system: any number of clients, each at a
program point of Acquire, waitForInstance or Release, beside the eviction tick,
Register and Close. One move is one action of the source, or several of them that
only the holder of the mutex takes: taking or giving back the mutex with the access
of the state it guards, one unlocked call into a browser or provider, one atomic
counter increment. Under the mutex PingFailed closes the browser, uncounts it and
raises EvictTotal, Evict does so for all idle browsers that are too old, and Drain
empties all stacks.
*/
module PoolProtocol {
  import opened Sums

  /** browser.Type is an integer; values outside the named constants are allowed. */
  type Kind = int

  /** A browser is named by its position in the order of creation. */
  type Browser = nat

  datatype Entry = Entry(browser: Browser, lastUsed: int)

  /** Where a client is. The mutex is held exactly at Looping and Pinging. */
  datatype Phase =
    | Outside
    // Acquire
    | Admitted(kind: Kind)
    | Queued(kind: Kind)
    | Looping(kind: Kind, polling: bool)
    | Pinging(kind: Kind, polling: bool, browser: Browser)
    | Waiting(kind: Kind)
    | Creating(kind: Kind)
    | Undoing
    | Failing
    | Created(kind: Kind, browser: Browser)
    | CreateCounted(kind: Kind, browser: Browser)
    | Reused(kind: Kind, browser: Browser)
    | ReuseCounted(kind: Kind, browser: Browser)
    // between Acquire and Release
    | Holding(kind: Kind, browser: Browser)
    // Release
    | Discarding(browser: Browser)
    | Leaving(browser: Browser, broken: bool)
    | Breaking(browser: Browser)
    | Broken
    | Returning(browser: Browser)
    | Panicked(browser: Browser)

  /** The client has a browser in its hands: one the pool handed out or is testing. */
  predicate HasBrowser(p: Phase) {
    || p.Pinging? || p.Created? || p.CreateCounted? || p.Reused? || p.ReuseCounted? || p.Holding?
    || p.Discarding? || p.Leaving? || p.Breaking? || p.Returning? || p.Panicked?
  }

  datatype Lock = Free | HeldBy(client: nat)

  /**
   What is counted: the counters of browser.Metrics that Acquire, Release and
   evictIdle raise, then events that no field of the source records.
   */
  datatype Tally =
    | AcquireTotal | AcquireSuccess | AcquireFail | CreateTotal | ReleaseTotal | EvictTotal | ReuseTotal
    | WaitsEnded      // acquires that returned from waitForInstance
    | BrokenReleases  // completed connection-error releases
    | PutBacks        // releases that put their browser back
    | Abandoned       // releases after Close, which leave inUse and total alone
    | DrainedIdle     // idle browsers closed by Close, which leaves total alone

  datatype State = State(
    maxInstances: int,
    idleTimeout: int,
    providers: set<Kind>,
    idle: map<Kind, seq<Entry>>,
    inUse: int,
    total: int,
    closed: bool,
    drained: bool,            // Close has closed the idle browsers and set instances to nil
    crashed: bool,
    lock: Lock,
    clients: seq<Phase>,
    now: int,
    created: seq<Kind>,       // BrowserType of every browser ever created
    closeLog: seq<Browser>,   // browsers in the order Close was called on them
    counts: map<Tally, nat>)

  function Count(counts: map<Tally, nat>, x: Tally): nat {
    if x in counts then counts[x] else 0
  }

  function Raise(counts: map<Tally, nat>, x: Tally, n: nat): map<Tally, nat> {
    counts[x := Count(counts, x) + n]
  }

  datatype Move =
    | BeginAcquire(kind: Kind)
    | CountAcquire
    | TakeLock
    | NoProvider
    | Pop
    | PingFailed
    | PingOk
    | GiveUp
    | Reserve
    | CreateOk
    | CreateFailed
    | Undo
    | CountFailure
    | CountSuccess
    | CountKind
    | TimeOut
    | BeginRelease(broken: bool)
    | CloseDiscarded
    | CountRelease
    | CloseBroken
    | DropBroken
    | PutBack

  datatype Action =
    | Client(i: nat, move: Move)
    | Evict(evicted: seq<Browser>)
    | SetClosed
    | Drain(closing: seq<Browser>)
    | Register(kind: Kind)
    | Tick(now: int)

  /** The idle stack of a kind; a missing key of a Go map reads as the empty slice. */
  function Stack(idle: map<Kind, seq<Entry>>, k: Kind): seq<Entry> {
    if k in idle then idle[k] else []
  }

  /** evictIdle keeps the entries that are not older than the idle timeout, in order. */
  function Keep(es: seq<Entry>, now: int, timeout: int): (r: seq<Entry>)
    ensures |r| <= |es|
  {
    if es == [] then []
    else if now - es[|es| - 1].lastUsed > timeout then Keep(es[..|es| - 1], now, timeout)
    else Keep(es[..|es| - 1], now, timeout) + [es[|es| - 1]]
  }

  function KeepAll(idle: map<Kind, seq<Entry>>, now: int, timeout: int): map<Kind, seq<Entry>> {
    map k | k in idle :: Keep(idle[k], now, timeout)
  }

  /** What to count in the idle stacks: every slot, or the slots of one browser. */
  datatype Pick = All | Only(browser: Browser)

  function SlotCount(pick: Pick, es: seq<Entry>): (r: nat)
    ensures pick == All ==> r == |es|
  {
    if es == [] then 0
    else
      SlotCount(pick, es[..|es| - 1]) +
      (if pick == All || pick.browser == es[|es| - 1].browser then 1 else 0)
  }

  ghost function IdleCount(pick: Pick, idle: map<Kind, seq<Entry>>): nat
    decreases |idle|
  {
    if idle == map[] then 0
    else
      var k := AnyKey(idle);
      SlotCount(pick, idle[k]) + IdleCount(pick, idle - {k})
  }

  /** How often b occurs in a list. */
  function Times(bs: seq<Browser>, b: Browser): nat {
    multiset(bs)[b]
  }

  /** The idle slots of from are those of to and, one each, the browsers of gone. */
  ghost predicate Removes(from: map<Kind, seq<Entry>>, to: map<Kind, seq<Entry>>, gone: seq<Browser>) {
    && IdleCount(All, from) == IdleCount(All, to) + |gone|
    && forall b: Browser :: IdleCount(Only(b), from) == IdleCount(Only(b), to) + Times(gone, b)
  }

  predicate InSection(p: Phase) {
    p.Looping? || p.Pinging?
  }

  /** Whether client i can make the move now. */
  predicate MoveEnabled(s: State, i: nat, move: Move)
    requires i < |s.clients|
  {
    var p := s.clients[i];
    match move
    case BeginAcquire(_) => p.Outside?
    case CountAcquire => p.Admitted?
    case TakeLock => (p.Queued? || p.Waiting?) && s.lock.Free?
    case NoProvider => p.Looping? && !p.polling && p.kind !in s.providers
    case Pop => p.Looping? && (p.polling || p.kind in s.providers) && Stack(s.idle, p.kind) != []
    case PingFailed => p.Pinging?
    case PingOk => p.Pinging?
    case GiveUp =>
      && p.Looping? && Stack(s.idle, p.kind) == []
      && (p.polling || (p.kind in s.providers && s.total >= s.maxInstances))
    case Reserve =>
      && p.Looping? && !p.polling && Stack(s.idle, p.kind) == []
      && p.kind in s.providers && s.total < s.maxInstances
    case CreateOk => p.Creating?
    case CreateFailed => p.Creating?
    case Undo => p.Undoing? && s.lock.Free?
    case CountFailure => p.Failing?
    case CountSuccess => p.Created? || p.Reused?
    case CountKind => p.CreateCounted? || p.ReuseCounted?
    case TimeOut => p.Waiting?
    case BeginRelease(_) => p.Holding?
    case CloseDiscarded => p.Discarding?
    case CountRelease => p.Leaving?
    case CloseBroken => p.Breaking?
    case DropBroken => p.Broken? && s.lock.Free?
    case PutBack => p.Returning? && s.lock.Free?
  }

  datatype Shelf = Leave | TakeTop(kind: Kind) | PutOn(kind: Kind, browser: Browser)

  datatype Raised = NoCounter | One(x: Tally)

  /** What one move of a client does. */
  datatype Effect = Effect(
    next: Phase,
    lock: Lock,
    total: int,       // change of total
    inUse: int,       // change of inUse
    shelf: Shelf,     // change of the idle stacks
    closes: bool,     // Close is called on the client's browser
    creates: bool,    // the provider returns a new browser
    raised: Raised)   // the counter raised

  function Go(s: State, next: Phase): Effect {
    Effect(next, s.lock, 0, 0, Leave, false, false, NoCounter)
  }

  function MoveEffect(s: State, i: nat, move: Move): Effect
    requires i < |s.clients| && MoveEnabled(s, i, move)
  {
    var p := s.clients[i];
    match move
    case BeginAcquire(k) => Go(s, if s.closed then Outside else Admitted(k))
    case CountAcquire => Go(s, Queued(p.kind)).(raised := One(AcquireTotal))
    case TakeLock => Go(s, Looping(p.kind, p.Waiting?)).(lock := HeldBy(i))
    case NoProvider => Go(s, Failing).(lock := Free)
    case Pop =>
      var st := Stack(s.idle, p.kind);
      Go(s, Pinging(p.kind, p.polling, st[|st| - 1].browser)).(shelf := TakeTop(p.kind))
    case PingFailed =>
      Go(s, Looping(p.kind, p.polling)).(closes := true, total := -1, raised := One(EvictTotal))
    case PingOk =>
      if p.polling
      then Go(s, Holding(p.kind, p.browser)).(inUse := 1, lock := Free, raised := One(WaitsEnded))
      else Go(s, Reused(p.kind, p.browser)).(inUse := 1, lock := Free)
    case GiveUp => Go(s, Waiting(p.kind)).(lock := Free)
    case Reserve => Go(s, Creating(p.kind)).(total := 1, inUse := 1, lock := Free)
    case CreateOk => Go(s, Created(p.kind, |s.created|)).(creates := true)
    case CreateFailed => Go(s, Undoing)
    case Undo => Go(s, Failing).(total := -1, inUse := -1)
    case CountFailure => Go(s, Outside).(raised := One(AcquireFail))
    case CountSuccess =>
      Go(s, if p.Created? then CreateCounted(p.kind, p.browser) else ReuseCounted(p.kind, p.browser))
      .(raised := One(AcquireSuccess))
    case CountKind =>
      Go(s, Holding(p.kind, p.browser)).(raised := One(if p.CreateCounted? then CreateTotal else ReuseTotal))
    case TimeOut => Go(s, Outside).(raised := One(WaitsEnded))
    case BeginRelease(broken) =>
      Go(s, if s.closed then Discarding(p.browser) else Leaving(p.browser, broken))
    case CloseDiscarded => Go(s, Outside).(closes := true, raised := One(Abandoned))
    case CountRelease =>
      Go(s, if p.broken then Breaking(p.browser) else Returning(p.browser)).(raised := One(ReleaseTotal))
    case CloseBroken => Go(s, Broken).(closes := true)
    case DropBroken => Go(s, Outside).(total := -1, inUse := -1, raised := One(BrokenReleases))
    case PutBack =>
      if s.drained
      then Go(s, Panicked(p.browser)).(inUse := -1)  // assigning to an entry of the nil map panics
      else Go(s, Outside).(inUse := -1, shelf := PutOn(KindOf(s, p.browser), p.browser), raised := One(PutBacks))
  }

  function Shelve(s: State, shelf: Shelf): map<Kind, seq<Entry>> {
    match shelf
    case Leave => s.idle
    case TakeTop(k) =>
      var st := Stack(s.idle, k);
      if st == [] then s.idle else s.idle[k := st[..|st| - 1]]
    case PutOn(k, b) => s.idle[k := Stack(s.idle, k) + [Entry(b, s.now)]]
  }

  function Moved(s: State, i: nat, e: Effect): State
    requires i < |s.clients|
    requires e.closes ==> HasBrowser(s.clients[i])
    requires e.creates ==> e.next.Created?
  {
    s.(clients := s.clients[i := e.next],
       lock := e.lock,
       total := s.total + e.total,
       inUse := s.inUse + e.inUse,
       idle := Shelve(s, e.shelf),
       closeLog := if e.closes then s.closeLog + [s.clients[i].browser] else s.closeLog,
       created := if e.creates then s.created + [e.next.kind] else s.created,
       counts := if e.raised.One? then Raise(s.counts, e.raised.x, 1) else s.counts,
       crashed := s.crashed || e.next.Panicked?)
  }

  /** BrowserType(); 0 stands for browsers that do not exist. */
  function KindOf(s: State, b: Browser): Kind {
    if b < |s.created| then s.created[b] else 0
  }

  ghost predicate Enabled(s: State, a: Action) {
    && !s.crashed
    && match a
       case Client(i, move) => i < |s.clients| && MoveEnabled(s, i, move)
       case Evict(evicted) =>
         && s.lock.Free?
         && Removes(s.idle, KeepAll(s.idle, s.now, s.idleTimeout), evicted)
       case SetClosed => true
       case Drain(closing) =>
         && s.closed && !s.drained && s.lock.Free?
         && Removes(s.idle, map[], closing)
       case Register(_) => s.lock.Free?
       case Tick(now) => s.now <= now
  }

  /** The state after an action; a client's move that is not enabled changes nothing. */
  ghost function Apply(s: State, a: Action): State {
    match a
    case Client(i, move) =>
      if i < |s.clients| && MoveEnabled(s, i, move) then Moved(s, i, MoveEffect(s, i, move)) else s
    case Evict(evicted) =>
      s.(idle := KeepAll(s.idle, s.now, s.idleTimeout),
         total := s.total - |evicted|,
         closeLog := s.closeLog + evicted,
         counts := Raise(s.counts, EvictTotal, |evicted|))
    case SetClosed => s.(closed := true)
    case Drain(closing) =>
      s.(idle := map[], drained := true,
         closeLog := s.closeLog + closing,
         counts := Raise(s.counts, DrainedIdle, |closing|))
    case Register(k) => s.(providers := s.providers + {k})
    case Tick(now) => s.(now := now)
  }

  /** A new pool with any number of clients, all of them outside. */
  ghost predicate Init(s: State) {
    && s.idle == map[] && s.inUse == 0 && s.total == 0 && s.providers == {}
    && !s.closed && !s.drained && !s.crashed && s.lock.Free?
    && (forall i | 0 <= i < |s.clients| :: s.clients[i] == Outside)
    && s.created == [] && s.closeLog == []
    && s.counts == map[]
  }

  /** The actions can be taken one after the other from s. */
  ghost predicate CanRun(s: State, acts: seq<Action>)
    decreases |acts|
  {
    acts == [] || (Enabled(s, acts[0]) && CanRun(Apply(s, acts[0]), acts[1..]))
  }

  ghost function Run(s: State, acts: seq<Action>): State
    requires CanRun(s, acts)
    decreases |acts|
  {
    if acts == [] then s else Run(Apply(s, acts[0]), acts[1..])
  }
}
