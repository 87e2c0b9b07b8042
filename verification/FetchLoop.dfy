/** Pool.FetchWithFallback and tryFetch, one call at a time. */
module FetchLoop {
  import opened Sums
  import opened ConnectionErrors
  import Quoting
  import opened Options
  import opened PoolProtocol
  import opened PoolCalls
  import opened PoolRounds
  import opened PoolObject
  import M = Metrics

  datatype BlockResult = BlockResult(blocked: bool, reason: string)

  /** What a browser and the detector answer during one tryFetch. */
  datatype Visit = Visit(
    navigate: Option<Error>, waitStable: Option<Error>,
    html: string, htmlErr: Option<Error>,
    title: string, titleErr: Option<Error>,
    verdict: BlockResult)

  datatype Page = Page(html: string, title: string)

  /** What tryFetch leaves behind: the page read so far, and what it wrote into the attempt. */
  datatype Answer = Answer(err: Option<Error>, blocked: bool, reason: string, page: Page)

  function Fails(words: string, e: Error, page: Page): Answer {
    var w := Wrap(Context(words), e);
    Answer(Some(w), false, w.text, page)
  }

  /** The title error that counts: ErrUnsupported does not. */
  function TitleFailure(v: Visit): Option<Error> {
    if v.titleErr.Some? && v.titleErr.value.unsupported then None else v.titleErr
  }

  function TryFetch(graphic: char -> bool, url: string, v: Visit): Answer {
    if v.navigate.Some? then Fails(Navigate(graphic, url), v.navigate.value, Page("", ""))
    else if v.waitStable.Some? then Fails(WAIT_STABLE, v.waitStable.value, Page("", ""))
    else if v.htmlErr.Some? then Fails(GET_HTML, v.htmlErr.value, Page(v.html, ""))
    else if TitleFailure(v).Some? then Fails(GET_TITLE, v.titleErr.value, Page(v.html, v.title))
    else if v.verdict.blocked then Answer(None, true, v.verdict.reason, Page(v.html, v.title))
    else Answer(None, false, "", Page(v.html, v.title))
  }

  /** The first failing operation of a visit. */
  function Cause(v: Visit): Option<Error> {
    if v.navigate.Some? then v.navigate
    else if v.waitStable.Some? then v.waitStable
    else if v.htmlErr.Some? then v.htmlErr
    else TitleFailure(v)
  }

  /**
   Release sees a connection error exactly when the first failing operation reported
   one, or the navigation failed and the URL has a pattern, as it is or once it is quoted.
   */
  lemma TryFetchConnection(graphic: char -> bool, url: string, v: Visit)
    ensures IsConnectionError(TryFetch(graphic, url, v).err)
       <==> IsConnectionError(Cause(v)) || (v.navigate.Some? && UrlMatches(graphic, url))
  {
    if v.navigate.Some? {
      WrapNavigate(graphic, url, v.navigate.value);
    } else if v.waitStable.Some? {
      WrapPlain(WAIT_STABLE, v.waitStable.value);
    } else if v.htmlErr.Some? {
      WrapPlain(GET_HTML, v.htmlErr.value);
    } else if TitleFailure(v).Some? {
      WrapPlain(GET_TITLE, v.titleErr.value);
    }
  }

  /** Every operation of the visit succeeded; a title that is not supported does not count. */
  predicate Readable(v: Visit) {
    && v.navigate.None? && v.waitStable.None? && v.htmlErr.None?
    && (v.titleErr.None? || v.titleErr.value.unsupported)
  }

  /**
   The answer of tryFetch by what the browser and the detector say: an error exactly if
   some operation failed, a block exactly if none did and the detector says so.
   */
  lemma TryFetchOutcome(graphic: char -> bool, url: string, v: Visit)
    ensures var a := TryFetch(graphic, url, v);
      && (a.err.None? <==> Readable(v)) && (Cause(v).None? <==> Readable(v))
      && (a.blocked <==> Readable(v) && v.verdict.blocked)
      && a.reason == (if a.err.Some? then a.err.value.text else if v.verdict.blocked then v.verdict.reason else "")
      && (Readable(v) ==> a.page == Page(v.html, v.title))
  {
  }

  /** The messages, each ending in that of the first failing operation. */
  lemma FailureText(graphic: char -> bool, url: string, v: Visit)
    requires !Readable(v)
    ensures var text := TryFetch(graphic, url, v).err.value.text;
      var shown := Quoting.Quoted(graphic, url);
      text == if v.navigate.Some? then "browser: navigate \"" + shown + "\": " + v.navigate.value.text
              else if v.waitStable.Some? then "browser: wait stable: " + v.waitStable.value.text
              else if v.htmlErr.Some? then "browser: get html: " + v.htmlErr.value.text
              else "browser: get title: " + v.titleErr.value.text
  {
    assert "browser" + [':'] + (" navigate " + ['"']) == "browser: navigate \"";
    assert ['"'] + [':'] + " " == "\": ";
    assert Context(WAIT_STABLE) == "browser: wait stable: ";
    assert Context(GET_HTML) == "browser: get html: ";
    assert Context(GET_TITLE) == "browser: get title: ";
    ContextOfUrl(Quoting.Quoted(graphic, url));
  }

  lemma ContextOfUrl(quoted: string)
    ensures Context(" navigate " + ['"'] + quoted + ['"']) == "browser: navigate \"" + quoted + "\": "
  {
  }

  datatype FetchAttempt = FetchAttempt(
    kind: Kind, blocked: bool, reason: string, err: Option<Error>, duration: int)

  /** What happens on one pass of the loop: Acquire fails, or it returns a browser and tryFetch answers. */
  datatype Pass = Refused(e: Error, duration: int) | Visited(browser: Browser, answer: Answer, duration: int)

  function AttemptOf(kind: Kind, p: Pass): FetchAttempt {
    match p
    case Refused(e, duration) => FetchAttempt(kind, false, e.text, Some(e), duration)
    case Visited(_, a, duration) => FetchAttempt(kind, a.blocked, a.reason, a.err, duration)
  }

  predicate Usable(a: FetchAttempt) {
    a.err.None? && !a.blocked
  }

  /** The attempts of the first n passes. */
  function Attempts(chain: seq<Kind>, script: seq<Pass>, n: nat): (r: seq<FetchAttempt>)
    requires n <= |chain| && n <= |script|
    ensures |r| == n
  {
    if n == 0 then [] else Attempts(chain, script, n - 1) + [AttemptOf(chain[n - 1], script[n - 1])]
  }

  /** Attempt j is about kind j of the chain, with the error or block of pass j. */
  lemma {:induction false} AttemptAt(chain: seq<Kind>, script: seq<Pass>, n: nat, j: nat)
    requires j < n <= |chain| && n <= |script|
    ensures Attempts(chain, script, n)[j] == AttemptOf(chain[j], script[j])
    ensures Attempts(chain, script, n)[j].kind == chain[j]
  {
    if j < n - 1 { AttemptAt(chain, script, n - 1, j); }
  }

  lemma KindsInOrder(chain: seq<Kind>, script: seq<Pass>, attempts: seq<FetchAttempt>)
    requires |attempts| <= |chain| && |attempts| <= |script| && attempts == Attempts(chain, script, |attempts|)
    ensures forall j | 0 <= j < |attempts| :: attempts[j].kind == chain[j]
  {
    forall j | 0 <= j < |attempts| ensures attempts[j].kind == chain[j] { AttemptAt(chain, script, |attempts|, j); }
  }

  function Blocks(attempts: seq<FetchAttempt>): nat {
    if attempts == [] then 0
    else Blocks(attempts[..|attempts| - 1]) + if attempts[|attempts| - 1].blocked then 1 else 0
  }

  predicate NoneUsable(attempts: seq<FetchAttempt>) {
    forall j | 0 <= j < |attempts| :: !Usable(attempts[j])
  }

  /** The last attempt is usable and no earlier one is. */
  predicate FirstUsable(attempts: seq<FetchAttempt>) {
    attempts != [] && Usable(attempts[|attempts| - 1]) && NoneUsable(attempts[..|attempts| - 1])
  }

  datatype FetchResult = FetchResult(page: Page, finalKind: Kind, attempts: seq<FetchAttempt>, totalLatency: int)

  /** tryFetch never reports both an error and a block. */
  predicate Sound(p: Pass) {
    p.Visited? && p.answer.err.Some? ==> !p.answer.blocked
  }

  /** The fetch counters that a pass can change. */
  datatype Tallies = Tallies(
    success: nat, blocked: nat, fallback: nat, byKind: map<Kind, nat>, blocksByKind: map<Kind, nat>)

  /** The counters after a pass on kind whose attempt is a. */
  function Settled(t: Tallies, kind: Kind, a: FetchAttempt, first: bool): Tallies {
    if a.err.Some? then t
    else if a.blocked then t.(blocked := t.blocked + 1, blocksByKind := Bump(t.blocksByKind, kind))
    else t.(success := t.success + 1, byKind := Bump(t.byKind, kind),
            fallback := if first then t.fallback else t.fallback + 1)
  }

  function SettledAll(t: Tallies, chain: seq<Kind>, script: seq<Pass>, n: nat): Tallies
    requires n <= |chain| && n <= |script|
  {
    if n == 0 then t
    else Settled(SettledAll(t, chain, script, n - 1), chain[n - 1], AttemptOf(chain[n - 1], script[n - 1]), n == 1)
  }

  /** Passes without a usable page only count blocks, one for each blocked attempt. */
  lemma {:induction false} SettledNone(t: Tallies, chain: seq<Kind>, script: seq<Pass>, n: nat)
    requires n <= |chain| && n <= |script| && forall j | 0 <= j < |script| :: Sound(script[j])
    requires NoneUsable(Attempts(chain, script, n))
    ensures var u := SettledAll(t, chain, script, n);
      && u.blocked == t.blocked + Blocks(Attempts(chain, script, n))
      && MapSum(u.blocksByKind) == MapSum(t.blocksByKind) + Blocks(Attempts(chain, script, n))
      && u.success == t.success && u.byKind == t.byKind && u.fallback == t.fallback
  {
    if n > 0 {
      var all := Attempts(chain, script, n);
      assert all[..n - 1] == Attempts(chain, script, n - 1);
      assert !Usable(all[n - 1]) && Sound(script[n - 1]);
      assert NoneUsable(all[..n - 1]);
      SettledNone(t, chain, script, n - 1);
      MapSumBump(SettledAll(t, chain, script, n - 1).blocksByKind, chain[n - 1]);
    }
  }

  /** A successful call counts one fetch, under the kind of its last pass, and a fallback unless that was the first. */
  lemma SettledFirst(t: Tallies, chain: seq<Kind>, script: seq<Pass>, n: nat)
    requires n <= |chain| && n <= |script| && forall j | 0 <= j < |script| :: Sound(script[j])
    requires FirstUsable(Attempts(chain, script, n))
    ensures var u := SettledAll(t, chain, script, n);
      && u.blocked == t.blocked + Blocks(Attempts(chain, script, n))
      && MapSum(u.blocksByKind) == MapSum(t.blocksByKind) + Blocks(Attempts(chain, script, n))
      && u.success == t.success + 1
      && u.byKind == Bump(t.byKind, chain[n - 1])
      && u.fallback == t.fallback + if n > 1 then 1 else 0
  {
    var all := Attempts(chain, script, n);
    var init, last := all[..n - 1], all[n - 1];
    assert init == Attempts(chain, script, n - 1);
    SettledNone(t, chain, script, n - 1);
    assert Blocks(all) == Blocks(init);
    assert last == AttemptOf(chain[n - 1], script[n - 1]);
    assert SettledAll(t, chain, script, n) == Settled(SettledAll(t, chain, script, n - 1), chain[n - 1], last, n == 1);
  }

  /** The blocked attempts with browsers of one type. */
  function BlocksOf(attempts: seq<FetchAttempt>, kind: Kind): nat {
    if attempts == [] then 0
    else
      var a := attempts[|attempts| - 1];
      BlocksOf(attempts[..|attempts| - 1], kind) + if a.blocked && a.kind == kind then 1 else 0
  }

  lemma SettledBlocks(t: Tallies, kind: Kind, p: Pass, first: bool, k: Kind)
    requires Sound(p)
    ensures var a := AttemptOf(kind, p);
      Get(Settled(t, kind, a, first).blocksByKind, k)
      == Get(t.blocksByKind, k) + if a.blocked && a.kind == k then 1 else 0
  {
  }

  lemma BlocksOfPush(attempts: seq<FetchAttempt>, a: FetchAttempt, k: Kind)
    ensures BlocksOf(attempts + [a], k) == BlocksOf(attempts, k) + if a.blocked && a.kind == k then 1 else 0
  {
    assert (attempts + [a])[..|attempts|] == attempts;
  }

  /** Blocks are counted under the type of their attempt. */
  lemma {:induction false} BlocksByKind(t: Tallies, chain: seq<Kind>, script: seq<Pass>, n: nat, k: Kind)
    requires n <= |chain| && n <= |script| && forall j | 0 <= j < |script| :: Sound(script[j])
    ensures Get(SettledAll(t, chain, script, n).blocksByKind, k)
         == Get(t.blocksByKind, k) + BlocksOf(Attempts(chain, script, n), k)
  {
    if n > 0 {
      BlocksByKind(t, chain, script, n - 1, k);
      BlocksOfPush(Attempts(chain, script, n - 1), AttemptOf(chain[n - 1], script[n - 1]), k);
      SettledBlocks(SettledAll(t, chain, script, n - 1), chain[n - 1], script[n - 1], n == 1, k);
    }
  }

  /** The counters after a call, by its attempts and its result. */
  ghost predicate Tallied(t: Tallies, u: Tallies, result: FetchResult, ok: bool) {
    && u.success == t.success + (if ok then 1 else 0)
    && u.fallback == t.fallback + (if ok && |result.attempts| > 1 then 1 else 0)
    && u.blocked == t.blocked + Blocks(result.attempts)
    && (forall k :: Get(u.byKind, k) == Get(t.byKind, k) + (if ok && k == result.finalKind then 1 else 0))
    && (forall k :: Get(u.blocksByKind, k) == Get(t.blocksByKind, k) + BlocksOf(result.attempts, k))
  }

  // ---- the passes of a call that nobody interrupts ----

  /**
   The outside world's part of one pass: what Acquire and waitForInstance meet, the
   error Acquire returns if it fails, what tryFetch leaves behind if it does not, when
   the browser is released, and how long it all took.
   */
  datatype Turn = Turn(
    alive: set<Browser>, creates: bool, polls: seq<set<Browser>>, refusal: Error, answer: Answer, broken: bool,
    time: int, duration: int)

  function RoundOf(c: Turn): Round {
    Round(c.alive, c.creates, c.polls, c.broken, c.time)
  }

  /** What the pass is, in a pool that nobody else uses. */
  function PassIn(u: Setup, f: Fields, kind: Kind, c: Turn): Pass {
    match Acquired(u, f, kind, RoundOf(c))
    case None => Refused(c.refusal, c.duration)
    case Some(b) => Visited(b, c.answer, c.duration)
  }

  function Iterate(step: (Fields, nat) -> Fields, f: Fields, n: nat): Fields {
    if n == 0 then f else step(Iterate(step, f, n - 1), n - 1)
  }

  /** Pass j as a function of the pool it starts from: what it does to the pool, and what it is. */
  datatype Plan = Plan(step: (Fields, nat) -> Fields, pass: (Fields, nat) -> Pass)

  ghost predicate FitsAt(p: Plan, u: Setup, kind: Kind, c: Turn, j: nat) {
    && (forall f {:trigger RoundFields(u, f, kind, RoundOf(c))} :: p.step(f, j) == RoundFields(u, f, kind, RoundOf(c)))
    && (forall f {:trigger PassIn(u, f, kind, c)} :: p.pass(f, j) == PassIn(u, f, kind, c))
  }

  /** The plan is that of a call over the chain, in a pool with setup u. */
  ghost predicate Fits(p: Plan, u: Setup, chain: seq<Kind>, calls: seq<Turn>) {
    |chain| <= |calls| && forall j | 0 <= j < |chain| :: FitsAt(p, u, chain[j], calls[j], j)
  }

  /** Every call has a plan. */
  function PlanOf(u: Setup, chain: seq<Kind>, calls: seq<Turn>): Plan {
    Plan((f: Fields, j: nat) => if j < |chain| <= |calls| then RoundFields(u, f, chain[j], RoundOf(calls[j])) else f,
         (f: Fields, j: nat) => if j < |chain| <= |calls| then PassIn(u, f, chain[j], calls[j])
                                else Refused(Error("", false), 0))
  }

  lemma PlanFits(u: Setup, chain: seq<Kind>, calls: seq<Turn>)
    requires |chain| <= |calls|
    ensures Fits(PlanOf(u, chain, calls), u, chain, calls)
  {
  }

  /** The pool after the first n passes. */
  function PoolAt(p: Plan, f: Fields, n: nat): Fields {
    Iterate(p.step, f, n)
  }

  /** What the first n passes are. */
  function Script(p: Plan, f: Fields, n: nat): (r: seq<Pass>)
    ensures |r| == n
  {
    seq(n, j requires 0 <= j < n => p.pass(PoolAt(p, f, j), j))
  }

  lemma StepInUse(p: Plan, u: Setup, kind: Kind, c: Turn, f: Fields, j: nat)
    requires FitsAt(p, u, kind, c, j)
    ensures p.step(f, j).inUse == f.inUse
  {
    RoundInUse(u, f, kind, RoundOf(c));
  }

  /**
   Each successful Acquire is matched by one Release before the next pass: after every
   pass inUse is what it was before the call.
   */
  lemma {:induction false} CallBalanced(p: Plan, u: Setup, f: Fields, chain: seq<Kind>, calls: seq<Turn>, n: nat)
    requires Fits(p, u, chain, calls) && n <= |chain|
    ensures PoolAt(p, f, n).inUse == f.inUse
  {
    if n > 0 {
      CallBalanced(p, u, f, chain, calls, n - 1);
      StepInUse(p, u, chain[n - 1], calls[n - 1], PoolAt(p, f, n - 1), n - 1);
    }
  }

  /** The pool s with other fields, at another time; the client is outside as before. */
  function Later(s: State, f: Fields, now: int): State {
    With(s, f).(now := now)
  }

  /** An uninterrupted call can start. */
  predicate Ready(s: State, i: nat) {
    i < |s.clients| && s.clients[i].Outside? && !s.crashed && s.lock.Free? && (s.drained ==> s.closed)
  }

  lemma PassLeads(p: Plan, s: State, i: nat, f: Fields, now: int, kind: Kind, c: Turn, j: nat)
    requires Ready(s, i) && now <= c.time && FitsAt(p, SetupOf(s), kind, c, j)
    ensures Leads(Later(s, f, now), Later(s, p.step(f, j), c.time))
  {
    var t := Later(s, f, now);
    LeadsBy(t, Tick(c.time));
    RoundLeads(Later(s, f, c.time), i, kind, RoundOf(c));
    LeadsTrans(t, Later(s, f, c.time), Later(s, RoundFields(SetupOf(s), f, kind, RoundOf(c)), c.time));
  }

  /** The times of a call: when it starts, and when each pass ends. */
  function TimesOf(s: State, calls: seq<Turn>): (times: seq<int>)
    ensures |times| == |calls| + 1 && times[0] == s.now
    ensures forall j | 0 <= j < |calls| :: times[j + 1] == calls[j].time
  {
    [s.now] + seq(|calls|, j requires 0 <= j < |calls| => calls[j].time)
  }

  /** The clock does not go back during the call. */
  predicate Forward(s: State, calls: seq<Turn>) {
    forall j | 0 <= j < |calls| :: TimesOf(s, calls)[j] <= TimesOf(s, calls)[j + 1]
  }

  /** The pool after the first n passes, as a state of the step system with the client outside. */
  function StateAt(p: Plan, s: State, calls: seq<Turn>, n: nat): State
    requires n <= |calls|
  {
    Later(s, PoolAt(p, FieldsOf(s), n), TimesOf(s, calls)[n])
  }

  lemma StateAtStart(p: Plan, s: State, calls: seq<Turn>)
    ensures StateAt(p, s, calls, 0) == s
  {
    assert Later(s, FieldsOf(s), TimesOf(s, calls)[0]) == s;
  }

  /** The passes from m on are a run of the step system. */
  lemma {:induction false} PassesAreARun(p: Plan, s: State, i: nat, chain: seq<Kind>, calls: seq<Turn>, m: nat, n: nat)
    requires Ready(s, i) && m <= n <= |chain| && Fits(p, SetupOf(s), chain, calls) && Forward(s, calls)
    ensures Leads(StateAt(p, s, calls, m), StateAt(p, s, calls, n))
  {
    if n == m {
      LeadsSelf(StateAt(p, s, calls, m));
    } else {
      var f, times := PoolAt(p, FieldsOf(s), n - 1), TimesOf(s, calls);
      PassesAreARun(p, s, i, chain, calls, m, n - 1);
      PassLeads(p, s, i, f, times[n - 1], chain[n - 1], calls[n - 1], n - 1);
      LeadsTrans(StateAt(p, s, calls, m), Later(s, f, times[n - 1]), StateAt(p, s, calls, n));
    }
  }

  /**
   If the clock does not go back, the whole call is a run of the step system, at whose
   end the client is outside again.
   */
  lemma CallIsARun(p: Plan, s: State, i: nat, chain: seq<Kind>, calls: seq<Turn>, n: nat)
    requires Ready(s, i) && n <= |chain| && Fits(p, SetupOf(s), chain, calls) && Forward(s, calls)
    ensures Leads(s, StateAt(p, s, calls, n)) && StateAt(p, s, calls, n).clients[i].Outside?
  {
    StateAtStart(p, s, calls);
    PassesAreARun(p, s, i, chain, calls, 0, n);
  }

  /** What a browser would answer on a pass, and the rest of a turn. */
  datatype Call = Call(
    alive: set<Browser>, creates: bool, polls: seq<set<Browser>>, refusal: Error, visit: Visit,
    time: int, duration: int)

  /** tryFetch and the classification of its error. */
  function TurnOf(graphic: char -> bool, url: string, c: Call): (t: Turn)
    ensures t.answer == TryFetch(graphic, url, c.visit) && t.broken == IsConnectionError(t.answer.err)
  {
    var answer := TryFetch(graphic, url, c.visit);
    Turn(c.alive, c.creates, c.polls, c.refusal, answer, IsConnectionError(answer.err), c.time, c.duration)
  }

  function TurnsOf(graphic: char -> bool, url: string, calls: seq<Call>): (r: seq<Turn>)
    ensures |r| == |calls|
  {
    seq(|calls|, j requires 0 <= j < |calls| => TurnOf(graphic, url, calls[j]))
  }

  lemma ScriptSound(p: Plan, u: Setup, f: Fields, chain: seq<Kind>, graphic: char -> bool, url: string,
      calls: seq<Call>)
    requires Fits(p, u, chain, TurnsOf(graphic, url, calls))
    ensures forall j | 0 <= j < |chain| :: Sound(Script(p, f, |chain|)[j])
  {
    var turns := TurnsOf(graphic, url, calls);
    forall j | 0 <= j < |chain| ensures Sound(Script(p, f, |chain|)[j]) {
      assert turns[j] == TurnOf(graphic, url, calls[j]);
      TurnSound(graphic, url, calls[j]);
      assert FitsAt(p, u, chain[j], turns[j], j);
      assert p.pass(PoolAt(p, f, j), j) == PassIn(u, PoolAt(p, f, j), chain[j], turns[j]);
    }
  }

  lemma TurnSound(graphic: char -> bool, url: string, c: Call)
    ensures TurnOf(graphic, url, c).answer.err.Some? ==> !TurnOf(graphic, url, c).answer.blocked
  {
  }

  /**
   What the loop leaves. The attempts are those of the first passes, in order. Success:
   the last attempt is the first usable one, and its page is kept. Failure: every kind
   was tried and none was usable.
   */
  predicate Tried(script: seq<Pass>, chain: seq<Kind>, calls: seq<Turn>, attempts: seq<FetchAttempt>, page: Page,
      ok: bool)
    requires |script| == |chain| <= |calls|
  {
    var n := |attempts|;
    && n <= |chain| && attempts == Attempts(chain, script, n)
    && if ok then FirstUsable(attempts) && page == calls[n - 1].answer.page
       else n == |chain| && NoneUsable(attempts)
  }

  /** What FetchWithFallback returns. */
  predicate ResultOf(script: seq<Pass>, chain: seq<Kind>, calls: seq<Turn>, result: FetchResult, ok: bool)
    requires |script| == |chain| <= |calls|
  {
    && Tried(script, chain, calls, result.attempts, result.page, ok)
    && (ok ==> result.finalKind == chain[|result.attempts| - 1])
  }

  /** The pass got a browser, and its visit read a page that the detector lets through. */
  predicate Accepts(p: Pass, c: Call) {
    p.Visited? && Readable(c.visit) && !c.visit.verdict.blocked
  }

  /** What the attempt of a pass says: why Acquire failed, or how the visit went. */
  predicate Tells(a: FetchAttempt, p: Pass, c: Call) {
    && a.duration == c.duration
    && if p.Refused? then a.err == Some(c.refusal) && a.reason == c.refusal.text && !a.blocked
       else
         && (a.err.None? <==> Readable(c.visit))
         && (a.blocked <==> Readable(c.visit) && c.visit.verdict.blocked)
         && a.reason == if a.err.Some? then a.err.value.text else if a.blocked then c.visit.verdict.reason else ""
  }

  lemma PassTells(u: Setup, f: Fields, kind: Kind, graphic: char -> bool, url: string, c: Call)
    ensures var p := PassIn(u, f, kind, TurnOf(graphic, url, c));
      Tells(AttemptOf(kind, p), p, c) && (Usable(AttemptOf(kind, p)) <==> Accepts(p, c))
  {
    TryFetchOutcome(graphic, url, c.visit);
  }

  /** Each attempt tells of its pass, and a pass is accepted exactly if it is the last of a successful call. */
  predicate Reports(script: seq<Pass>, calls: seq<Call>, attempts: seq<FetchAttempt>, ok: bool) {
    && |attempts| <= |script| && |attempts| <= |calls|
    && (forall j | 0 <= j < |attempts| :: Tells(attempts[j], script[j], calls[j]))
    && (forall j | 0 <= j < |attempts| :: Accepts(script[j], calls[j]) <==> ok && j == |attempts| - 1)
    && (ok ==> attempts != [])
  }

  lemma AttemptTells(p: Plan, u: Setup, f: Fields, chain: seq<Kind>, graphic: char -> bool, url: string,
      calls: seq<Call>, attempts: seq<FetchAttempt>, j: nat)
    requires Fits(p, u, chain, TurnsOf(graphic, url, calls)) && j < |attempts| <= |chain|
    requires attempts == Attempts(chain, Script(p, f, |chain|), |attempts|)
    ensures var pass := Script(p, f, |chain|)[j];
      Tells(attempts[j], pass, calls[j]) && (Usable(attempts[j]) <==> Accepts(pass, calls[j]))
  {
    var turn := TurnsOf(graphic, url, calls)[j];
    assert FitsAt(p, u, chain[j], turn, j);
    assert Script(p, f, |chain|)[j] == PassIn(u, PoolAt(p, f, j), chain[j], turn);
    AttemptAt(chain, Script(p, f, |chain|), |attempts|, j);
    PassTells(u, PoolAt(p, f, j), chain[j], graphic, url, calls[j]);
  }

  lemma CallReports(p: Plan, u: Setup, f: Fields, chain: seq<Kind>, graphic: char -> bool, url: string,
      calls: seq<Call>, result: FetchResult, ok: bool)
    requires Fits(p, u, chain, TurnsOf(graphic, url, calls))
    requires ResultOf(Script(p, f, |chain|), chain, TurnsOf(graphic, url, calls), result, ok)
    ensures Reports(Script(p, f, |chain|), calls, result.attempts, ok)
  {
    var attempts, script := result.attempts, Script(p, f, |chain|);
    forall j | 0 <= j < |attempts|
      ensures Tells(attempts[j], script[j], calls[j]) && (Usable(attempts[j]) <==> Accepts(script[j], calls[j]))
    {
      AttemptTells(p, u, f, chain, graphic, url, calls, attempts, j);
    }
    if ok { assert forall j | 0 <= j < |attempts| - 1 :: attempts[..|attempts| - 1][j] == attempts[j]; }
  }

  /** The page of a successful call was read whole: html and title of the last visit. */
  lemma PageRead(p: Plan, u: Setup, f: Fields, chain: seq<Kind>, graphic: char -> bool, url: string,
      calls: seq<Call>, result: FetchResult)
    requires Fits(p, u, chain, TurnsOf(graphic, url, calls))
    requires ResultOf(Script(p, f, |chain|), chain, TurnsOf(graphic, url, calls), result, true)
    ensures var n := |result.attempts|;
      0 < n <= |chain| && result.page == Page(calls[n - 1].visit.html, calls[n - 1].visit.title)
  {
    var j := |result.attempts| - 1;
    CallReports(p, u, f, chain, graphic, url, calls, result, true);
    assert Accepts(Script(p, f, |chain|)[j], calls[j]);
    TryFetchOutcome(graphic, url, calls[j].visit);
    assert TurnsOf(graphic, url, calls)[j] == TurnOf(graphic, url, calls[j]);
  }

  lemma CallTallied(t: Tallies, chain: seq<Kind>, script: seq<Pass>, calls: seq<Turn>, result: FetchResult, ok: bool)
    requires |script| == |chain| <= |calls| && ResultOf(script, chain, calls, result, ok)
    requires forall j | 0 <= j < |script| :: Sound(script[j])
    ensures Tallied(t, SettledAll(t, chain, script, |result.attempts|), result, ok)
  {
    var n := |result.attempts|;
    if ok { SettledFirst(t, chain, script, n); } else { SettledNone(t, chain, script, n); }
    forall k
      ensures Get(SettledAll(t, chain, script, n).blocksByKind, k)
           == Get(t.blocksByKind, k) + BlocksOf(result.attempts, k)
    {
      BlocksByKind(t, chain, script, n, k);
    }
  }

  /** The fetch counters between calls. */
  ghost predicate AddUp(total: nat, allFail: nat, t: Tallies) {
    && total == t.success + allFail
    && t.success == MapSum(t.byKind)
    && t.blocked == MapSum(t.blocksByKind)
    && t.fallback <= t.success
  }

  /** They add up again after a call. */
  lemma StillAddUp(total: nat, allFail: nat, t: Tallies, chain: seq<Kind>, script: seq<Pass>, n: nat, ok: bool)
    requires AddUp(total, allFail, t) && n <= |chain| && n <= |script|
    requires forall j | 0 <= j < |script| :: Sound(script[j])
    requires if ok then FirstUsable(Attempts(chain, script, n)) else NoneUsable(Attempts(chain, script, n))
    ensures AddUp(total + 1, if ok then allFail else allFail + 1, SettledAll(t, chain, script, n))
  {
    if ok {
      SettledFirst(t, chain, script, n);
      MapSumBump(t.byKind, chain[n - 1]);
    } else {
      SettledNone(t, chain, script, n);
    }
  }

  /** So the rates that Snapshot reports are shares in order, and all fetches succeeded exactly at rate one. */
  lemma RatesOrdered(total: nat, allFail: nat, t: Tallies)
    requires AddUp(total, allFail, t)
    ensures 0.0 <= M.Rate(t.fallback, total) <= M.Rate(t.success, total) <= 1.0
    ensures M.Rate(t.success, total) == 1.0 <==> total > 0 && allFail == 0
    ensures M.Rate(t.success, total) * total as real == t.success as real
    ensures M.Rate(t.fallback, total) * total as real == t.fallback as real
  {
    M.RateAscends(t.fallback, t.success, total);
  }

  /** What one more pass adds. */
  lemma OneMorePass(p: Plan, f: Fields, chain: seq<Kind>, t: Tallies, i: nat, attempts: seq<FetchAttempt>,
      a: FetchAttempt)
    requires i < |chain| && attempts == Attempts(chain, Script(p, f, |chain|), i) && NoneUsable(attempts)
    requires a == AttemptOf(chain[i], p.pass(PoolAt(p, f, i), i))
    ensures attempts + [a] == Attempts(chain, Script(p, f, |chain|), i + 1)
    ensures if Usable(a) then FirstUsable(attempts + [a]) else NoneUsable(attempts + [a])
    ensures SettledAll(t, chain, Script(p, f, |chain|), i + 1)
         == Settled(SettledAll(t, chain, Script(p, f, |chain|), i), chain[i], a, i == 0)
    ensures PoolAt(p, f, i + 1) == p.step(PoolAt(p, f, i), i)
  {
    assert Script(p, f, |chain|)[i] == p.pass(PoolAt(p, f, i), i);
    assert (attempts + [a])[..i] == attempts;
  }

  /** The loop stops at the first usable attempt. */
  lemma StopsHere(script: seq<Pass>, chain: seq<Kind>, calls: seq<Turn>, attempts: seq<FetchAttempt>, page: Page)
    requires |script| == |chain| <= |calls| && |attempts| <= |chain|
    requires attempts == Attempts(chain, script, |attempts|) && FirstUsable(attempts)
    requires page == calls[|attempts| - 1].answer.page
    ensures Tried(script, chain, calls, attempts, page, true)
  {
  }

  /** Or it runs to the end. */
  lemma NoneWorked(script: seq<Pass>, chain: seq<Kind>, calls: seq<Turn>, attempts: seq<FetchAttempt>, page: Page)
    requires |script| == |chain| <= |calls|
    requires attempts == Attempts(chain, script, |chain|) && NoneUsable(attempts)
    ensures |attempts| == |chain| && Tried(script, chain, calls, attempts, page, false)
  {
  }

  /** The pool and its metrics, as FetchWithFallback uses them. */
  class Fetcher {
    const pool: Pool
    const metrics: M.Metrics

    constructor (pool: Pool, metrics: M.Metrics)
      ensures this.pool == pool && this.metrics == metrics
    {
      this.pool, this.metrics := pool, metrics;
    }

    /** What the fetch counters satisfy between calls. */
    ghost predicate Balanced()
      reads metrics
    {
      AddUp(metrics.fetchTotal, metrics.fetchAllFail, Counts())
    }

    ghost function Counts(): Tallies
      reads metrics
    {
      Tallies(metrics.fetchSuccess, metrics.fetchBlocked, metrics.fetchFallback,
              metrics.fetchByType, metrics.blockByType)
    }

    /** The counters that the end of a pass with a browser raises; done when the page is usable. */
    method Settle(kind: Kind, a: FetchAttempt, first: bool) returns (done: bool)
      modifies metrics`fetchSuccess, metrics`fetchBlocked, metrics`fetchFallback
      modifies metrics`fetchByType, metrics`blockByType
      ensures done == Usable(a)
      ensures Counts() == Settled(old(Counts()), kind, a, first)
    {
      if a.err.Some? {
        return false;
      }
      if a.blocked {
        metrics.fetchBlocked := metrics.fetchBlocked + 1;
        metrics.RecordBlockByType(kind);
        return false;
      }
      if !first {
        metrics.fetchFallback := metrics.fetchFallback + 1;
      }
      metrics.fetchSuccess := metrics.fetchSuccess + 1;
      metrics.RecordFetchByType(kind);
      return true;
    }

    /** Acquire, which may go on to wait for an instance. */
    method Acquire(kind: Kind, c: Turn) returns (got: Option<Browser>)
      modifies pool`instances, pool`total, pool`inUse, pool`counts, pool`created, pool`closeLog
      ensures got == Acquired(pool.Settings(), old(pool.Content()), kind, RoundOf(c))
      ensures pool.Content() == AcquireWait(pool.Settings(), old(pool.Content()), kind, RoundOf(c))
    {
      var o := pool.Acquire(kind, c.alive, c.creates);
      match o {
        case Reuse(b) => got := Some(b);
        case New(b) => got := Some(b);
        case MustWait => got := pool.WaitForInstance(kind, c.polls);
        case _ => got := None;
      }
    }

    /** One pass of the loop: Acquire, tryFetch, Release, and the counters. */
    method TryKind(kind: Kind, c: Turn, first: bool) returns (a: FetchAttempt, done: bool, page: Page)
      requires pool.isNil ==> pool.closed
      modifies pool`instances, pool`total, pool`inUse, pool`counts, pool`created, pool`closeLog
      modifies metrics`fetchSuccess, metrics`fetchBlocked, metrics`fetchFallback
      modifies metrics`fetchByType, metrics`blockByType
      ensures a == AttemptOf(kind, PassIn(pool.Settings(), old(pool.Content()), kind, c)) && done == Usable(a)
      ensures done ==> page == c.answer.page
      ensures pool.Content() == RoundFields(pool.Settings(), old(pool.Content()), kind, RoundOf(c))
      ensures Counts() == Settled(old(Counts()), kind, a, first)
    {
      var got := Acquire(kind, c);
      if got.None? {
        return FetchAttempt(kind, false, c.refusal.text, Some(c.refusal), c.duration), false, Page("", "");
      }
      var answer := c.answer;
      pool.Release(got.value, c.broken, c.time);
      a := FetchAttempt(kind, answer.blocked, answer.reason, answer.err, c.duration);
      done := Settle(kind, a, first);
      page := answer.page;
    }

    /** Pass j of a plan. */
    method TryPass(ghost p: Plan, ghost j: nat, kind: Kind, c: Turn, first: bool)
      returns (a: FetchAttempt, done: bool, page: Page)
      requires (pool.isNil ==> pool.closed) && FitsAt(p, pool.Settings(), kind, c, j)
      modifies pool`instances, pool`total, pool`inUse, pool`counts, pool`created, pool`closeLog
      modifies metrics`fetchSuccess, metrics`fetchBlocked, metrics`fetchFallback
      modifies metrics`fetchByType, metrics`blockByType
      ensures a == AttemptOf(kind, p.pass(old(pool.Content()), j)) && done == Usable(a)
      ensures done ==> page == c.answer.page
      ensures pool.Content() == p.step(old(pool.Content()), j)
      ensures Counts() == Settled(old(Counts()), kind, a, first)
    {
      a, done, page := TryKind(kind, c, first);
    }

    /** Pass i, after the i passes that gave attempts; f and t are pool and counters before the loop. */
    method TryNext(ghost p: Plan, ghost f: Fields, ghost t: Tallies, ghost script: seq<Pass>,
        chain: seq<Kind>, calls: seq<Turn>, i: nat, attempts: seq<FetchAttempt>)
      returns (more: seq<FetchAttempt>, ok: bool, page: Page)
      requires (pool.isNil ==> pool.closed) && i < |chain| <= |calls|
      requires FitsAt(p, pool.Settings(), chain[i], calls[i], i) && script == Script(p, f, |chain|)
      requires attempts == Attempts(chain, script, i) && NoneUsable(attempts)
      requires pool.Content() == PoolAt(p, f, i) && Counts() == SettledAll(t, chain, script, i)
      modifies pool`instances, pool`total, pool`inUse, pool`counts, pool`created, pool`closeLog
      modifies metrics`fetchSuccess, metrics`fetchBlocked, metrics`fetchFallback
      modifies metrics`fetchByType, metrics`blockByType
      ensures more == Attempts(chain, script, i + 1)
      ensures if ok then FirstUsable(more) && page == calls[i].answer.page else NoneUsable(more)
      ensures pool.Content() == PoolAt(p, f, i + 1) && Counts() == SettledAll(t, chain, script, i + 1)
    {
      var a;
      a, ok, page := TryPass(p, i, chain[i], calls[i], i == 0);
      OneMorePass(p, f, chain, t, i, attempts, a);
      more := attempts + [a];
    }

    /** The loop over the chain; calls[j] is what happens on pass j. */
    method TryChain(ghost p: Plan, chain: seq<Kind>, calls: seq<Turn>)
      returns (attempts: seq<FetchAttempt>, ok: bool, page: Page)
      requires (pool.isNil ==> pool.closed) && Fits(p, pool.Settings(), chain, calls)
      modifies pool`instances, pool`total, pool`inUse, pool`counts, pool`created, pool`closeLog
      modifies metrics`fetchSuccess, metrics`fetchBlocked, metrics`fetchFallback
      modifies metrics`fetchByType, metrics`blockByType
      ensures Tried(Script(p, old(pool.Content()), |chain|), chain, calls, attempts, page, ok)
      ensures pool.Content() == PoolAt(p, old(pool.Content()), |attempts|)
      ensures Counts() == SettledAll(old(Counts()), chain, Script(p, old(pool.Content()), |chain|), |attempts|)
    {
      ghost var f, t, u := pool.Content(), Counts(), pool.Settings();
      ghost var script := Script(p, f, |chain|);
      attempts, ok, page := [], false, Page("", "");
      for i := 0 to |chain|
        invariant attempts == Attempts(chain, script, i) && NoneUsable(attempts) && !ok
        invariant pool.Content() == PoolAt(p, f, i) && Counts() == SettledAll(t, chain, script, i)
        invariant pool.Settings() == u
      {
        attempts, ok, page := TryNext(p, f, t, script, chain, calls, i, attempts);
        if ok {
          StopsHere(script, chain, calls, attempts, page);
          return;
        }
      }
      NoneWorked(script, chain, calls, attempts, page);
    }

    /** FetchWithFallback, given what tryFetch makes of each page. */
    method FetchTurns(ghost p: Plan, chain: seq<Kind>, turns: seq<Turn>, latency: int)
      returns (result: FetchResult, ok: bool)
      requires (pool.isNil ==> pool.closed) && Fits(p, pool.Settings(), chain, turns)
      requires Balanced() && forall j | 0 <= j < |chain| :: Sound(Script(p, pool.Content(), |chain|)[j])
      modifies pool`instances, pool`total, pool`inUse, pool`counts, pool`created, pool`closeLog, metrics
      ensures Balanced() && metrics.fetchTotal == old(metrics.fetchTotal) + 1
      ensures result.totalLatency == latency
      ensures ResultOf(Script(p, old(pool.Content()), |chain|), chain, turns, result, ok)
      ensures Tallied(old(Counts()), Counts(), result, ok)
      ensures metrics.fetchAllFail == old(metrics.fetchAllFail) + if ok then 0 else 1
      ensures pool.Content() == PoolAt(p, old(pool.Content()), |result.attempts|)
      ensures metrics.latencies == if ok then M.Record(old(metrics.latencies), latency) else old(metrics.latencies)
      ensures Counts() == SettledAll(old(Counts()), chain, Script(p, old(pool.Content()), |chain|), |result.attempts|)
    {
      ghost var script := Script(p, pool.Content(), |chain|);
      metrics.fetchTotal := metrics.fetchTotal + 1;
      var attempts, found, page := TryChain(p, chain, turns);
      StillAddUp(old(metrics.fetchTotal), old(metrics.fetchAllFail), old(Counts()), chain, script, |attempts|, found);
      if found {
        metrics.RecordLatency(latency);
        result, ok := FetchResult(page, chain[|attempts| - 1], attempts, latency), true;
        CallTallied(old(Counts()), chain, script, turns, result, true);
        return;
      }
      metrics.fetchAllFail := metrics.fetchAllFail + 1;
      result, ok := FetchResult(page, 0, attempts, latency), false;
      CallTallied(old(Counts()), chain, script, turns, result, false);
    }

    /** What the call over the chain does in the pool as it is set up. */
    ghost function CallPlan(graphic: char -> bool, url: string, chain: seq<Kind>, calls: seq<Call>): Plan
      reads pool
    {
      PlanOf(pool.Settings(), chain, TurnsOf(graphic, url, calls))
    }

    /** calls[j] is what the world answers on pass j; latency is how long the whole call took. */
    method FetchWithFallback(graphic: char -> bool, url: string, chain: seq<Kind>, calls: seq<Call>, latency: int)
      returns (result: FetchResult, ok: bool)
      requires (pool.isNil ==> pool.closed) && |chain| <= |calls| && Balanced()
      modifies pool`instances, pool`total, pool`inUse, pool`counts, pool`created, pool`closeLog, metrics
      ensures var p := old(CallPlan(graphic, url, chain, calls));
        && ResultOf(Script(p, old(pool.Content()), |chain|), chain, TurnsOf(graphic, url, calls), result, ok)
        // the pool: as after the passes that were made, with no browser kept
        && pool.Content() == PoolAt(p, old(pool.Content()), |result.attempts|)
        && Counts() == SettledAll(old(Counts()), chain, Script(p, old(pool.Content()), |chain|), |result.attempts|)
      ensures pool.inUse == old(pool.inUse)
      // the last pass of a successful call is the first that the detector lets through; of a failed one none is
      ensures !ok ==> |result.attempts| == |chain|
      ensures Reports(Script(old(CallPlan(graphic, url, chain, calls)), old(pool.Content()), |chain|),
                      calls, result.attempts, ok)
      // one attempt for each type tried, in the order of the chain
      ensures |result.attempts| <= |chain|
      ensures forall j | 0 <= j < |result.attempts| :: result.attempts[j].kind == chain[j]
      // a page is read whole, on the last pass
      ensures var n := |result.attempts|;
        ok ==> 0 < n <= |chain| && result.page == Page(calls[n - 1].visit.html, calls[n - 1].visit.title)
      ensures result.totalLatency == latency
      // the metrics
      ensures Tallied(old(Counts()), Counts(), result, ok)
      ensures metrics.fetchAllFail == old(metrics.fetchAllFail) + if ok then 0 else 1
      ensures Balanced() && metrics.fetchTotal == old(metrics.fetchTotal) + 1
      ensures metrics.latencies == if ok then M.Record(old(metrics.latencies), latency) else old(metrics.latencies)
    {
      ghost var f, u, p := pool.Content(), pool.Settings(), CallPlan(graphic, url, chain, calls);
      var turns := TurnsOf(graphic, url, calls);
      PlanFits(u, chain, turns);
      ScriptSound(p, u, f, chain, graphic, url, calls);
      result, ok := FetchTurns(p, chain, turns, latency);
      CallBalanced(p, u, f, chain, turns, |result.attempts|);
      KindsInOrder(chain, Script(p, f, |chain|), result.attempts);
      CallReports(p, u, f, chain, graphic, url, calls, result, ok);
      if ok { PageRead(p, u, f, chain, graphic, url, calls, result); }
    }
  }
}
