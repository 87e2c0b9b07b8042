# Proofs about the browser pool, the worker, the router and the artifact store

This project models, in Dafny 4.11, the parts of the repository that hold state:

- **the browser pool** (`browser/pool.go`): per-type stacks of idle browsers, the counters `inUse` and `total`, the closed
  flag and the metrics, used by any number of concurrent clients beside an eviction tick, `Register` and `Close`;
- **`FetchWithFallback` and `Worker.Run`** on top of it: any number of fallback loops as clients of one pool, and the
  fan-out of such loops under a semaphore, a wait group and a context that may be cancelled;
- **the endpoint router** of the browserless provider and the **latency window** of the metrics;
- **the artifact store**: lexical path cleaning, keys, containment below a base directory, and the manifest that a `Dir`
  accumulates beside its store.

`dafny verify dfyconfig.toml` checks everything.

## How it is built

| files | what they hold |
|---|---|
| `PoolProtocol` | the pool as a step system: one move is one action of the source (taking or giving back the mutex with the access of the state it guards, one unlocked call into a browser or provider, one counter increment), or several that only the holder of the mutex takes (closing a dead idle browser and counting it, a whole eviction, emptying the stacks); the number of clients is unbounded |
| `PoolCounts`, `PoolInvariant`, `PoolTheorems` | sums over clients and idle slots, the inductive invariant, and what it implies in every reachable state |
| `PoolSection`, `PoolProviders`, `PoolClosing` | over runs: what a client takes between getting the mutex and giving it back, who gets a browser at all, and who still does after Close |
| `PoolCalls`, `PoolRounds`, `PoolEffects`, `PoolObject` | whole calls as runs of the step system, where the browsers are after each, and the class `Pool` whose methods (pop loops, in-place compaction, map ranges) are proved equal to those calls |
| `Substrings`, `Quoting`, `ConnectionErrors`, `FetchLoop`, `FetchEffects` | substring search, `strconv.Quote`, the error classification and its wrapping; the fallback loop as a method that calls the `Pool` and raises the `Metrics` |
| `FetchProtocol`, `FetchTheorems`, `FetchClosing`, `FetchMeters` | concurrent fallback loops, coupled to their pool clients; fetches after Close; the counters by type |
| `WorkerProtocol`, `WorkerTheorems`, `WorkerStarts`, `WorkerEnding` | `Worker.Run` on top of those: safety, a termination measure, absence of deadlock; which tasks it starts, and when it can still return |
| `Router`, `RouterTheorems`, `RouterFailover` | the router class; fairness of round robin; failover |
| `Metrics` | the sliding window, sorting, percentiles, average, rates |
| `Paths`, `Refs`, `Keys`, `LocalPaths` | `path.Clean` as a component stack machine, `cleanRef`, `BuildKey`, `pathForWrite` |
| `Stores`, `Indexes`, `Manifest`, `ManifestTheorems` | backends, the index and its lookups, the class `Dir`, and the agreement of manifest and store |
| `Sums`, `Options` | finite sums and `Option` |

Calls into browsers, providers, the network, clocks and the scheduler are parameters or free choices of the step
systems. The pool proofs assume that `Create` returns a browser that was not seen before and has the type of its
provider, that a client releases what it acquired once, and that the clock does not go back.

## What the proofs found

- A `Release` that finds the pool open and reaches its critical section after `Close` has set `instances` to nil appends
  into a nil map, which panics. `PoolTheorems.PanicIffReleaseInFlight` says exactly when a run after the start of `Close`
  can end so: when some error-free release has passed its closed check. Every new pool with a client and room for one
  browser can get there (`PoolCalls.NewPoolPanicsIff`).
- `Close` leaves `total` and releases after it leave `inUse` as they were. `PoolTheorems.StatsBalance` says by how much
  `Stats` is off from then on.
- A task that is about to put its browser back into the emptied stacks never gets out of its `Release`, so `Worker.Run`
  never returns. Nothing else keeps it from returning: from every other state that a run reaches without a panic some
  continuation returns (`WorkerEnding.CanReturnIff`).
- The text of a navigate error contains the URL, so a URL can make any navigate error look like a connection error
  (`ConnectionErrors.WrapNavigate`, `ConnectionErrors.UrlCanMislead`). Even a URL without one of the patterns can, since
  `%q` shows a backspace before `roken pipe` as `\b` (`ConnectionErrors.EscapeCanMislead`); a URL in which nothing is
  escaped does so exactly if it has a pattern (`ConnectionErrors.ShownMatches`).
- The round-robin counter wraps at 2^64. Unless the number of endpoints divides that, a `Pick` around the wrap can miss
  the only healthy endpoint (`RouterTheorems.PickFindsIff`) and fairness fails there (`RouterTheorems.FairIff`).
- `MarkUnhealthy` marks the first endpoint with a URL. Failover exhausts the endpoints exactly if each candidate is the
  first with its URL; otherwise no number of failing attempts does (`RouterFailover.FailoverIff`,
  `RouterFailover.FailoverNever`).
- `BuildKey` trims white space after `cleanRef` has cleaned, and the store cleans what that leaves. Being accepted by
  `cleanRef` therefore does not make sure that a ref is stored below its namespace: `" ../x"` is accepted and leaves it
  (`LocalPaths.SpacedLeaves`). `LocalPaths.DirBelowIff` says exactly which refs stay below every namespace without white
  space around it, and `LocalPaths.NamespaceBelowIff` exactly for which namespaces those refs stay: a namespace such as
  `" a"` is accepted too, does not have them below it, and shares every path with `"a"`
  (`LocalPaths.SpacedNamespace`). Nor do distinct keys make distinct paths: `" /a"` and `"a"` share one
  (`LocalPaths.SpacedShares`, `LocalPaths.SamePathIff`), and refs that differ only in white space around the cleaned ref
  share a key (`Keys.KeyCollides`, `Keys.CleanedSpaceCollides`). Namespaces `"a"` and `"a/b"` share places without any
  white space (`ManifestTheorems.TidyPlaces`). The manifest agrees with the store exactly as long as nothing else is
  written to the same place later, by this `Dir` or another (`ManifestTheorems.AgreesIff`).
- With the base directory `/`, `pathForWrite` accepts a key only if it resolves to `/` itself, so every ref that stays
  below its namespace is rejected (`LocalPaths.DirAcceptedIff`, `LocalPaths.DirUnderAccepted`).
- `Index.Find` returns the first entry of a ref, so after a rewrite it describes the first write
  (`ManifestTheorems.FindAgreesIff`).

## Model

| member | source | states |
|---|---|---|
| PoolInvariant.StepInv | browser/pool.go:67-255 | whatever client, eviction tick, `Register` or `Close` acts next, the pool stays consistent: every browser in one place and of the right type, one lock holder, all counters adding up, `total` capped, idle stacks sorted by age |
| PoolTheorems.OneOwner | browser/pool.go:82-107 | in every interleaving a browser that was created is in exactly one place (one slot of the stack of its own type, one client's hands, or closed once), and one that was not created is nowhere |
| PoolTheorems.LiveBound | browser/pool.go:109-125 | browsers created and not yet closed are at most `total`, and `total` is at most MaxInstances |
| PoolTheorems.NothingLeaks | browser/pool.go:228-245 | after Close, once no client is inside a call or has a browser, every browser ever created has been closed exactly once |
| PoolTheorems.StatsBalance | browser/pool.go:205-222 | Stats has Total == Available + InUse until Close empties the stacks and InUse counts the right clients until the closed flag is set; afterwards each is off by an exact amount |
| PoolTheorems.MetricsConservation | browser/pool.go:72-131 | in every state of every run the acquire, create, evict, reuse and release counters balance with `total` and with the calls in progress |
| PoolTheorems.MetricsAtRest | browser/pool.go:72-131 | with no call in progress, whoever holds browsers, AcquireSuccess == ReuseTotal + CreateTotal and the other balances hold without correction |
| PoolTheorems.RightKind | browser/pool.go:82-131 | a client always holds a browser of the type it asked for, also through waitForInstance |
| PoolTheorems.MutualExclusion | browser/pool.go:74-116 | two clients are never inside the critical section at once |
| PoolTheorems.PopNewest | browser/pool.go:82-85 | what is popped was released no earlier than anything else on its stack |
| PoolSection.NewestTaken | browser/pool.go:82-107 | whatever the others do between a client's TakeLock, in Acquire or in a poll, and its successful ping: the browser it gets is the last one of the stack it found that was not closed on the way, every later one was, and every earlier one was released before it |
| PoolSection.NothingLeft | browser/pool.go:82-116 | an Acquire creates a browser, or goes to wait, only after every idle browser of its type that it found was closed on the way; it creates one only if there is room, and waits only if there is none |
| PoolSection.SectionIsAtomic | browser/pool.go:74-116 | while a client is inside the critical section, nobody else changes the stacks, `total`, `inUse` or the providers |
| PoolProviders.RegisteredOnly | browser/pool.go:74-80 | in every reachable state only clients that asked for a registered type wait for, create or hold a browser |
| PoolProviders.NotFoundOnly | browser/pool.go:74-80 | only an Acquire whose type has no provider when it gets the mutex fails for want of one |
| PoolProviders.HowAcquireReturns | browser/pool.go:72-131 | an Acquire past the closed check comes back without a browser only by counting a failure or from its wait |
| PoolTheorems.BrokenNeverIdle | browser/pool.go:179-190 | a browser released with a connection error is in no idle stack in any state of any later run |
| PoolTheorems.ClosedForGood | browser/pool.go:93-107 | a browser on which Close was called is called so once, and in no later state does a stack or a client have it |
| PoolClosing.StaysOutside | browser/pool.go:67-70 | a client that is outside when Close sets the flag stays outside in every later state of every run |
| PoolClosing.LateAcquires | browser/pool.go:67-125 | from then on AcquireTotal rises exactly by the clients that had passed the closed check uncounted, and each Acquire under way creates at most one browser |
| PoolClosing.GoodGoesBack | browser/pool.go:192-199 | on every run from an error-free Release past the closed check, its browser is still on the way or was on top of the stack of its type with the time of its release, unless the append panicked |
| PoolTheorems.PanicIffReleaseInFlight | browser/pool.go:192-199 | in any reachable state after Close has set the flag, with the mutex free or held and the stacks emptied or not, some continuation panics on the nil map exactly if an error-free release has passed the closed check |
| PoolCalls.NewPoolPanicsIff | browser/pool.go:228-245 | a new pool can run into that panic exactly if it has a client and MaxInstances is positive |
| PoolInvariant.KeepIsSuffix | browser/pool.go:378-393 | on a stack sorted by age, eviction removes exactly a prefix: the entries older than the timeout |
| PoolInvariant.KeepMembers | browser/pool.go:378-393 | eviction keeps exactly the entries that are not older than the timeout |
| PoolObject.Compact | browser/pool.go:379-393 | compaction in the very array being ranged over leaves the entries to keep, in order, and closes the others |
| PoolObject.KeepOrDrop | browser/pool.go:380-392 | every entry is either kept or closed, counted per browser |
| PoolObject.Pool.PopLive | browser/pool.go:82-107 | the pop loop closes and uncounts the dead entries above the newest live one and takes that one into use |
| PoolObject.Pool.Acquire | browser/pool.go:67-132 | the fields after an uninterrupted Acquire, and its outcome: closed, no provider, reuse, wait, failed create undone, new |
| PoolObject.Pool.AcquireAs | browser/pool.go:67-132 | the object, seen as a state of the step system, goes through AcquireCall |
| PoolObject.Pool.WaitForInstance | browser/pool.go:134-169 | the fields after the polls, up to the first that finds a live browser of the type, and that browser; none if the context ends first |
| PoolObject.Pool.WaitAs | browser/pool.go:134-169 | as a state of the step system it goes through WaitCall |
| PoolObject.Pool.Release | browser/pool.go:172-203 | the fields after an uninterrupted Release: closed pool, connection error, or back on its stack |
| PoolObject.Pool.ReleaseAs | browser/pool.go:172-203 | as a state of the step system the object goes through ReleaseCall |
| PoolObject.Pool.EvictIdle | browser/pool.go:373-395 | every stack compacted, the evicted browsers closed, `total` and EvictTotal changed by their number |
| PoolObject.Pool.EvictAs | browser/pool.go:373-395 | as a state of the step system the object takes the eviction step, which is enabled |
| PoolObject.Pool.Close | browser/pool.go:228-255 | every idle browser closed once, whatever order the map is ranged in; a second Close does nothing |
| PoolObject.Pool.CloseAs | browser/pool.go:228-255 | as a state of the step system the object goes through CloseCall |
| PoolObject.Pool.Stats | browser/pool.go:205-222 | the numbers by type and their sum |
| PoolCalls.AcquireCallLeads | browser/pool.go:67-132 | an uninterrupted Acquire is a run of the step system, so all the above holds of it |
| PoolCalls.ReleaseCallLeads | browser/pool.go:172-203 | the same for Release |
| PoolCalls.CloseCallLeads | browser/pool.go:228-255 | the same for Close |
| PoolRounds.WaitCallLeads | browser/pool.go:134-169 | the same for waitForInstance |
| PoolRounds.RoundLeads | browser/pool.go:269-284 | an Acquire, the wait it may end in and the Release of what it returned are a run of the step system at whose end the client is outside again |
| PoolRounds.RoundInUse | browser/pool.go:269-284 | and inUse is what it was before |
| PoolRounds.PollIsNewestAlive | browser/pool.go:144-165 | a poll takes, of the idle browsers that answer the ping, the one released last |
| PoolCalls.CreateFailsLeads | browser/pool.go:114-125 | a failed Create gives back exactly its own reservation |
| PoolCalls.ReuseIsNewestAlive | browser/pool.go:82-107 | reuse takes, of the idle browsers that answer the ping, the one released last |
| PoolCalls.ReuseThenRelease | browser/pool.go:82-107 | a reuse undone by an error-free release: same rest of the stack, same inUse, only the dead entries gone |
| PoolEffects.ReleaseEffect | browser/pool.go:172-203 | after an uninterrupted Release its browser is closed exactly if the pool is closed or the error was a connection error, and else on top of the stack of its type; `total` falls exactly for a connection error in an open pool; no other browser changes place |
| PoolEffects.AcquireEnds | browser/pool.go:67-131 | exactly when an uninterrupted Acquire ends in which way, by the flag, the provider, the idle browsers that answer, the room and the answer of Create |
| PoolEffects.AcquireEffect | browser/pool.go:82-107 | entry by entry: it stays if a later one answers, goes to the client if it is the last that answers, and is closed otherwise |
| PoolEffects.AcquireRest | browser/pool.go:82-131 | the other stacks are as before; `total` follows the browsers closed and created, `inUse` the one handed out |
| PoolEffects.WaitEnds | browser/pool.go:134-169 | an uninterrupted wait finds a browser exactly if it polls and an idle one answers the first poll; otherwise that poll closes all of them |
| ConnectionErrors.WrapMatches | browser/pool.go:319-345 | a pattern in an error is still there after wrapping |
| ConnectionErrors.WrapPlain | browser/pool.go:326-345 | wait, html and title errors are classified as connection errors exactly if their cause is |
| ConnectionErrors.WrapNavigate | browser/pool.go:320-324 | for every URL, a navigate error is classified so exactly if its cause is, or the URL has a pattern, or has all but the first letter of one after a character whose escape ends in that letter |
| ConnectionErrors.ShownMatches | browser/pool.go:320-324 | for URLs in which nothing is escaped, such as those of printable ASCII without quotes and backslashes, only a pattern in the URL counts |
| ConnectionErrors.UrlCanMislead | browser/pool.go:320-324 | a URL that does so |
| ConnectionErrors.EscapeCanMislead | browser/pool.go:320-324 | a URL without a pattern that does so too |
| ConnectionErrors.ConnectionTexts | browser/errors.go:47-69 | which messages are those of connection errors |
| Quoting.QuotedBack | browser/pool.go:320-321 | the text that %q makes of a string can be read back, so it tells strings apart |
| Quoting.QuotedContains | browser/pool.go:320-321 | which words the text that %q makes of a string contains, for every string |
| FetchLoop.TryFetchConnection | browser/pool.go:319-357 | when the error of a whole tryFetch makes Release discard the browser, by the first failing operation and the URL |
| FetchLoop.TryFetchOutcome | browser/pool.go:319-357 | tryFetch reports an error exactly if some operation failed, and a block, with its reason, exactly if none did and the detector says so |
| FetchLoop.FailureText | browser/pool.go:320-345 | the message of each failure, word for word |
| FetchLoop.Fetcher.FetchWithFallback | browser/pool.go:258-317 | by what the browsers and the detector answered: attempts in the order of the chain, each telling of its pass; success exactly at the first page read without error that the detector lets through, failure if there is none; every counter, also by type, and the latency sample; the pool object as after the passes that were made, with inUse as before |
| FetchLoop.Fetcher.TryKind | browser/pool.go:264-305 | one pass calls Acquire, waits if it has to, and calls Release of what it got, with the classification of its own error |
| FetchLoop.Fetcher.TryChain | browser/pool.go:263-312 | the loop stops at the first usable attempt and else tries the whole chain |
| FetchLoop.CallBalanced | browser/pool.go:269-284 | each successful Acquire is matched by one Release before the next pass: after every pass inUse is what it was before the call |
| FetchLoop.CallIsARun | browser/pool.go:258-317 | the whole call is a run of the step system, after every pass of which the client is outside |
| FetchEffects.BrokenPassNeverIdle | browser/pool.go:279-284 | a pass whose visit fails first with a connection error: its browser is closed, and in no idle stack at any later point of the call |
| FetchEffects.GoodPassIsIdle | browser/pool.go:279-284 | after any other visit, unless the URL matches, it is idle again |
| FetchLoop.SettledFirst | browser/pool.go:293-304 | a successful call counts one success under its final type, a fallback unless it was the first type, and each block |
| FetchLoop.BlocksByKind | browser/pool.go:293-297 | over the passes of a call, blocks are counted under the types of the blocked attempts |
| FetchLoop.RatesOrdered | browser/metrics.go:143-146 | between calls 0 <= FallbackRate <= SuccessRate <= 1, each times FetchTotal is its counter, and SuccessRate is 1 exactly if there were fetches and none failed |
| FetchProtocol.FetchStepInv | browser/pool.go:258-317 | every step of any number of concurrent fetches keeps the coupling with the pool, the attempts and the fetch counters |
| FetchTheorems.PoolReachable | browser/pool.go:258-317 | under concurrent fetches the pool only reaches states of the pool's own step system |
| FetchTheorems.HoldsOnlyInside | browser/pool.go:269-284 | a fetch has a browser only between an Acquire and its Release |
| FetchTheorems.VisitsRightKind | browser/pool.go:279 | the page is visited with a browser of the type the chain asks for |
| FetchTheorems.FirstUsableWins | browser/pool.go:263-316 | on success at index i: i + 1 attempts, only the last usable; on failure: every type tried, none usable |
| FetchTheorems.SameAsTheLoop | browser/pool.go:263-316 | a concurrent call that has returned made as many attempts and ended as the uninterrupted loop does, given the same answers |
| FetchTheorems.ConnectionErrorNeverIdle | browser/pool.go:279-284 | a visit whose first failing operation reports a connection error, ended while the pool is open: its browser is in no idle stack in any state of any later run of concurrent fetches |
| FetchClosing.GoodVisitGoesBack | browser/pool.go:279-284 | any other visit that ended while the pool was open: on every later run its browser is on the way back or was back on top of its stack, unless the append panicked |
| FetchClosing.NoMorePages | browser/pool.go:263-286 | a fetch that is in no call when Close sets the flag visits no page any more: its further attempts are refused and it can only fail |
| FetchClosing.StartedAfterClose | browser/pool.go:263-316 | one that starts later ends, if it does, with one refused attempt for each type of its chain |
| FetchTheorems.FetchMetrics | browser/pool.go:261-314 | FetchTotal == FetchSuccess + FetchAllFail + fetches in flight at every step, FetchSuccess and FetchFallback are the calls that succeeded and those that did so beyond their first type; at rest the counters by type agree with the totals and FetchFallback <= FetchSuccess |
| FetchMeters.CountedByType | browser/pool.go:293-304 | at every step the fetches counted under a type are the calls that got their page with it, and the blocks those of its blocked attempts that are not just being counted |
| WorkerProtocol.WorkStepInv | browser/worker.go:77-142 | every step of Run, of its goroutines, of their fetches, of the pool and of the cancellation keeps the worker's invariant |
| WorkerTheorems.EverySlotOnce | browser/worker.go:77-116 | when Run returns, every slot was written exactly once and has the URL of its own task |
| WorkerTheorems.SpawnedPrefix | browser/worker.go:91-113 | the spawned tasks are a prefix, all of them unless the context was cancelled; the others have the context error, and a spawned task has the outcome of its own fetch exactly if it entered the semaphore |
| WorkerStarts.LateSpawn | browser/worker.go:91-113 | once the context has ended, at most the one task that the loop had let past its check is still spawned |
| WorkerStarts.NoneSpawnedLate | browser/worker.go:91-98 | and none if the loop is at its check or filling |
| WorkerStarts.CancelledBefore | browser/worker.go:91-98 | a Run whose context has ended before it starts no goroutine and no fetch, and every slot gets the context error with its own URL |
| WorkerStarts.OneTickEach | browser/worker.go:82-110 | with a rate limit every spawned task has taken a tick of its own, and without one no tick is waited for |
| WorkerTheorems.OneCallback | browser/worker.go:152-155 | OnResult fired once for each task that entered the semaphore and never for another |
| WorkerTheorems.SemBound | browser/worker.go:79-129 | at every step at most Concurrency tasks are past the semaphore and have at most one browser each |
| WorkerTheorems.NothingHeldAtEnd | browser/worker.go:115-129 | when Run returns, the semaphore is empty and no task has a browser |
| WorkerTheorems.StepDecreases | browser/worker.go:91-155 | every step of the worker and its fetches outside the pool lowers a measure that pool steps leave alone |
| WorkerTheorems.RunIsBounded | browser/worker.go:91-155 | so no schedule takes more such steps than the measure at the start |
| WorkerTheorems.RunEnds | browser/worker.go:91-155 | from the start that is at most linear in the number of tasks and the lengths of their chains |
| WorkerTheorems.NoDeadlock | browser/worker.go:77-142 | until Run returns, and unless the pool panicked, some step is enabled that does not take the end of a context; if no fetch is inside a call of the pool, it is a step of the worker or its fetches, which lowers the measure |
| WorkerEnding.CanReturnIff | browser/worker.go:77-142 | from any state that a run reaches without a panic, some continuation without a panic brings Run to its return exactly if no task is about to put a browser back into stacks that Close has emptied |
| WorkerTheorems.WorkReached | browser/worker.go:137 | a run of the worker is a run of concurrent fetches, so their theorems hold under it |
| Router.Router.Pick | browser/browserless/router.go:67-81 | which endpoint is taken and where the counter is afterwards, by strategy; nothing for an empty list, the first endpoint if none is healthy |
| Router.Router.PickRoundRobin | browser/browserless/router.go:105-119 | at most n probes, the first healthy one taken, else the first endpoint; the counter raised once a probe, wrapping |
| Router.Router.PickLeastLoad | browser/browserless/router.go:83-103 | a healthy endpoint of least load, the first among equals; the first of the list if none is eligible; unless a number wraps, that is the one with the fewest requests running and queued |
| Router.LeastIsFewest | browser/browserless/router.go:83-103 | without wrap, least load means the fewest requests running and queued together |
| Router.LoadIs | browser/browserless/router.go:92 | the load is that number modulo 2^64 in the range of an int, and the number itself if it is in that range |
| Router.LeastLoadedUnique | browser/browserless/router.go:83-103 | there is only one endpoint that pickLeastLoad can take |
| Router.Router.MarkUnhealthy | browser/browserless/router.go:121-132 | only the first endpoint with the URL changes, and only its health |
| Router.Router.HealthCheckAll | browser/browserless/router.go:134-153 | every endpoint takes over the answer to its request; the error is that of the last failing one |
| Router.Provider.Create | browser/browserless/provider.go:80-94 | a Create takes what Pick gives, marks it exactly if it could not connect, and leaves the other endpoints |
| RouterTheorems.PickFinds | browser/browserless/router.go:105-119 | with a healthy endpoint and no uneven wrap, the n probes find one |
| RouterTheorems.PickFindsIff | browser/browserless/router.go:105-119 | exactly when that holds for every pattern of health: no wrap within n probes, or n divides 2^64 |
| RouterTheorems.FullRound | browser/browserless/router.go:107-109 | n counter values in a row point at every endpoint once |
| RouterTheorems.WindowsBalance | browser/browserless/router.go:107-109 | any run of counter values points at any two endpoints equally often, give or take one |
| RouterTheorems.RunHits | browser/browserless/router.go:105-113 | a run of Picks takes a healthy endpoint once for every counter value that points at it |
| RouterTheorems.RoundRobinFair | browser/browserless/router.go:105-119 | over any run of Picks any two healthy endpoints are taken equally often, give or take one, whatever the pattern of unhealthy ones |
| RouterTheorems.FairIff | browser/browserless/router.go:105-119 | exactly when that holds for every start, across wraps: n divides 2^64 |
| RouterFailover.MarksThePicked | browser/browserless/router.go:121-132 | the endpoint that could not be reached becomes unhealthy exactly if no earlier one has its URL |
| RouterFailover.StuckOnDuplicate | browser/browserless/provider.go:80-89 | under least load, if the endpoint taken is behind an unhealthy one of its URL, every failing Create tries it again |
| RouterFailover.StuckExample | browser/browserless/provider.go:80-89 | a list of three in which the third endpoint is never tried for that reason |
| RouterFailover.FailoverExhausts | browser/browserless/provider.go:80-89 | if each candidate is the first endpoint with its URL, the first m failing Creates try each of the m candidates exactly once, under either strategy, and then none is left |
| RouterFailover.FailoverNever | browser/browserless/provider.go:80-89 | otherwise the candidate that is not stays one, however many Creates fail |
| RouterFailover.FailoverIff | browser/browserless/provider.go:80-89 | so failover exhausts the candidates exactly if each is the first endpoint with its URL |
| RouterFailover.FailoverInOrder | browser/browserless/router.go:83-103 | under least load, and if each candidate is the first with its URL, they are tried in the order of (load, index) |
| RouterFailover.FailoverByRequests | browser/browserless/router.go:83-103 | unless a number wraps, that is by requests running and queued, then by index |
| Metrics.Metrics.RecordLatency | browser/metrics.go:45-52 | one more sample, the oldest dropped if the window is full |
| Metrics.Metrics.RecordFetchByType | browser/metrics.go:54-58 | one more fetch under the type |
| Metrics.Metrics.RecordBlockByType | browser/metrics.go:60-64 | one more block under the type |
| Metrics.WindowIsLatest | browser/metrics.go:45-52 | the window always is the last min(n, 1000) samples of everything recorded |
| Metrics.Metrics.Snapshot | browser/metrics.go:90-149 | the twelve counters, copies of the counters by type, average and percentiles of the window, and the two rates; nothing changed |
| Metrics.SortedUnique | browser/metrics.go:122-130 | any correct sort gives the same result, so the percentiles do not depend on the algorithm |
| Metrics.PercentileRank | browser/metrics.go:151-157 | a percentile is a sample; the share of samples at most as large is above p hundredths of the distance between first and last, the share of smaller ones is not |
| Metrics.LatencyIs | browser/metrics.go:133-140 | what Snapshot reports of the window: the sum over the number truncated towards zero, and the samples at 50, 95 and 99 hundredths |
| Metrics.PercentilesAscend | browser/metrics.go:138-140 | P50 <= P95 <= P99 |
| Metrics.AverageBetween | browser/metrics.go:133-137 | the truncated average lies between any bounds of the samples, also for negative ones |
| Metrics.TotalPermuted | browser/metrics.go:133-136 | the sum is the same over the window and over its sorted copy |
| Paths.JoinSplit | artifact/dir.go:214 | joining the components of a path gives it back |
| Paths.SplitJoin | artifact/dir.go:214 | splitting joined components gives them back |
| Paths.ReduceDepth | artifact/dir.go:214-220 | the stack of a relative path has no ".." exactly if no prefix has negative depth, and then its height is the depth |
| Paths.CleanRules | artifact/dir.go:214 | the rules of path.Clean: blank and "." components go, ".." goes with the proper one before it and alone at the root, and proper paths stay |
| Paths.CleanIdem | artifact/dir.go:214 | Clean is idempotent |
| Refs.CleanRefIff | artifact/dir.go:207-222 | a ref is accepted exactly if it is nonempty, relative, never above its start and ends below it; exactly which error else |
| Refs.CleanRefIdem | artifact/dir.go:207-222 | an accepted ref has only proper components and cleaning it again changes nothing |
| Refs.CleanRefFixed | artifact/dir.go:207-222 | exactly the refs of proper components are left as they are |
| Keys.BuildKey | artifact/artifact.go:30-39 | the trimmed nonblank parts, joined |
| Keys.TrimIs | artifact/artifact.go:30-39 | trimming takes white space at both ends, all of it and nothing else |
| Keys.SpaceCodes | artifact/artifact.go:30-39 | which code points are white space |
| Keys.KeyIsBelow | artifact/dir.go:178 | the key is the namespace, a slash and the ref exactly if neither has white space around it |
| Keys.KeyComponents | artifact/dir.go:178 | its components are those of the namespace, then those of the ref, exactly then |
| Keys.KeyCollides | artifact/artifact.go:30-39 | two refs share a key exactly if they are equal up to white space around them |
| Keys.SameKeyIff | artifact/artifact.go:30-39 | two pairs of namespace and ref share a key exactly if, trimmed, they give it the same components |
| Keys.KeyInjective | artifact/artifact.go:30-39 | trimmed refs have distinct keys |
| Keys.CleanedSpaceCollides | artifact/dir.go:207-222 | two trimmed, accepted refs that share a key |
| LocalPaths.TestIsContainment | artifact/local.go:119-129 | below any base but the root, the string test is containment of component lists |
| LocalPaths.TestIsContainmentIff | artifact/local.go:119-129 | exactly when it is, including the root |
| LocalPaths.DirParts | artifact/local.go:119-124 | the components of the path of any namespace and ref: those of the base, then of the trimmed namespace, then of the trimmed ref, reduced |
| LocalPaths.DirUnder | artifact/local.go:119-124 | a ref that stays inside once it is trimmed is stored at base, namespace and its own components |
| LocalPaths.DirBelowIff | artifact/dir.go:207-222 | exactly which refs are stored strictly below every namespace that has no white space around it: those that, once trimmed, never leave their start and end below it |
| LocalPaths.NamespaceBelowIff | artifact/dir.go:31-37 | exactly which accepted namespaces have all those refs strictly below them: those without white space around them |
| LocalPaths.SpacedNamespace | artifact/dir.go:31-37 | two accepted namespaces that share the path of every ref |
| LocalPaths.DirAcceptedIff | artifact/local.go:119-129 | exactly which keys pathForWrite accepts, for every base, namespace and ref |
| LocalPaths.DirUnderAccepted | artifact/local.go:119-129 | refs that stay below their namespace are accepted under every base but the root, and under the root none of them |
| LocalPaths.SpacedLeaves | artifact/dir.go:207-222 | refs that cleanRef accepts and that are stored outside some namespace |
| LocalPaths.TidyStaysUnder | artifact/dir.go:207-222 | accepted refs without white space around them are such refs |
| LocalPaths.DirPath | artifact/local.go:119-129 | without white space around namespace and ref, the path is the base followed by the key, and it is accepted under every base but the root |
| LocalPaths.SamePathIff | artifact/local.go:119-124 | exactly when two refs, of one namespace or of two, are stored at one path |
| LocalPaths.SamePathInside | artifact/local.go:119-124 | for refs that stay inside once they are trimmed: when they then clean to the same components |
| LocalPaths.SpacedShares | artifact/local.go:119-124 | accepted refs with distinct keys and one path |
| LocalPaths.DirPathsDistinct | artifact/local.go:119-129 | distinct refs without white space around them are stored at distinct paths |
| Stores.FoldAppend | artifact/dir.go:76-82 | hashing a stream piece by piece is hashing the whole |
| Stores.Tee.Write | artifact/dir.go:189-192 | one chunk through the hash and the countingWriter |
| Stores.Store.PutReader | artifact/local.go:42-60 | for any chunking: the whole stream is stored, hashed and counted; a failure leaves anything |
| Stores.Store.Put | artifact/local.go:27-40 | the bytes are stored at the location of the key, or the write fails and leaves anything there |
| Stores.Store.Get | artifact/local.go:61-77 | what is stored at the location of the key, if anything |
| Manifest.Dir.constructor | artifact/dir.go:31-37 | an invalid namespace is remembered |
| Manifest.Dir.Put | artifact/dir.go:49-64 | store and entries after a Put, and its answer in every case |
| ManifestTheorems.PutEnds | artifact/dir.go:49-64 | exactly when a Put works or fails in which way; the manifest grows by one entry exactly when it works |
| Manifest.Dir.PutReader | artifact/dir.go:67-84 | the same as a Put of the concatenated chunks, for any chunking |
| Manifest.Dir.Finalize | artifact/dir.go:135-160 | the index of the entries, with count and total size, is stored under the index key and nothing else changes |
| Manifest.Dir.LoadIndex | artifact/dir.go:163-176 | the decoded index, or which error |
| ManifestTheorems.ManifestAgrees | artifact/dir.go:49-84 | over any run of writes of a Dir and of others on its store, with failures, a ref whose latest write succeeded, and after which nothing else was written to its place, is stored as written and its last entry has the size and checksum of the stored bytes and the tags of the write |
| ManifestTheorems.AgreesIff | artifact/dir.go:49-84 | over all contents and failures of the writes of given refs by given Dirs, they agree exactly if nothing else is written to the place of the ref after it |
| ManifestTheorems.CleanlyUndisturbed | artifact/dir.go:49-84 | in a Dir that is alone on its store, refs without white space around them once they are cleaned never disturb one another |
| ManifestTheorems.LoadedAgrees | artifact/dir.go:135-176 | and the same of the index that LoadIndex gives after Finalize, unless the ref is in the place of the index file |
| ManifestTheorems.FinalizeStored | artifact/dir.go:135-160 | what is stored for a ref after Finalize: what was, or the index if the ref is in its place |
| ManifestTheorems.FinalizeIsEvent | artifact/dir.go:135-160 | a Finalize in the middle of a run changes the store as a write of the index file's ref does, so the above covers it, of any Dir |
| ManifestTheorems.FinalizeThenLoad | artifact/dir.go:135-176 | LoadIndex after Finalize gives the entries, their number and the sum of their sizes |
| ManifestTheorems.LoadedTotals | artifact/dir.go:135-160 | count and total size of the loaded index are the Dir's successful writes and the bytes that they wrote |
| ManifestTheorems.LoadEnds | artifact/dir.go:163-176 | exactly when LoadIndex ends in which way, by what is stored in the place of the index |
| ManifestTheorems.OverwritesIff | artifact/artifact.go:30-39 | for every backend, exactly which refs of which namespaces can be written, with any contents and any failure, without changing what is stored for a ref: those in another place |
| ManifestTheorems.SamePlaceInBucket | artifact/artifact.go:30-39 | refs of two namespaces share a place in a bucket exactly if namespace and ref, trimmed, give the same components |
| ManifestTheorems.SamePlaceLocal | artifact/local.go:119-129 | in a local store exactly if the path is accepted and those components reduce to the same path above the base |
| ManifestTheorems.TidyPlaces | artifact/local.go:119-129 | without white space around them, in either backend: exactly if a place exists and the components of namespace and ref together are the same |
| ManifestTheorems.TidyApart | artifact/local.go:119-129 | distinct refs of one namespace, without white space around them, share a place in no backend |
| ManifestTheorems.SpaceOverwrites | artifact/dir.go:49-64 | a run with an untrimmed cleaned ref after which manifest and store disagree |
| ManifestTheorems.FindIsEarliest | artifact/index.go:28-35 | Find describes the first successful write of a ref |
| ManifestTheorems.FindAgreesIff | artifact/index.go:28-35 | so, for a ref that was not disturbed, it agrees with the store exactly if that write had the size, checksum and tags of the latest |
| ManifestTheorems.FindAgreesOnce | artifact/index.go:28-35 | in particular for every ref written once and not disturbed |
| ManifestTheorems.FindIsStale | artifact/index.go:28-35 | a run of two writes after which it does not |
| Indexes.Find | artifact/index.go:28-35 | the first entry of the ref, or none |
| Indexes.ByKind | artifact/index.go:38-46 | the entries of the kind, in order |
| Indexes.OfKindCount | artifact/index.go:38-46 | those entries as often as they are in the index, and no others |
| Indexes.OfKindInOrder | artifact/index.go:38-46 | each in its place: after as many of the kind as are before it in the index |
| Indexes.RefsOf | artifact/index.go:48-55 | the ref of every entry, in order |

## Left out

- Real browsers, CDP, HTTP, S3 and the file system: browsers and providers are free choices, a store is a map from locations to bytes in which a failed write leaves anything.
- Symbolic links and `pathForRead` (`artifact/local.go:132-150`): reading finds what was written at the same path.
- Liveness of `waitForInstance`: it can poll until the context ends; only that it returns the right type or times out is stated.
- A spawned task may still enter after the cancellation, because a select picks freely among its ready cases; nothing is claimed against that.
- WorkerTheorems.NoDeadlock: says that some step is enabled, not that the scheduler is fair or that a browser call returns; `WorkerEnding.CanReturnIff` speaks of some continuation, in which a wait for an instance may end with its context.
- RouterTheorems.RoundRobinFair: Picks one at a time; concurrent Picks share the probes of one another, and no fairness is claimed for them.
- ManifestTheorems.ManifestAgrees: writes one after the other, also those of other Dirs; `entries` is appended under a mutex, but which of two concurrent writes of a ref is last is not modelled.
- Metrics.Metrics.Snapshot: the counters are atomics loaded one by one; relations between them are stated on the pool's state, not on a snapshot taken while calls run. The two rates are quotients of reals where the source rounds to floating point, and the percentile index is floor((n - 1) * p / 100) on integers.
- Metrics.SortedUnique: `slices.SortFunc` is replaced by an insertion sort; uniqueness is what makes that harmless.
- Durations, counters and sizes are unbounded integers; only the load of an endpoint and the round-robin counter have their machine width.
- Stores.FoldAppend: SHA-256 is an arbitrary fold over bytes; the JSON text of the index is an arbitrary codec that round-trips.
- Under the mutex, the step system closes a dead idle browser, lowers `total` and raises EvictTotal in one move, and evicts in one move; that the browser is closed before it is uncounted is therefore not visible on these two paths.
- Quoting.QuotedContains: strings are characters; the escapes of bytes that are not UTF-8 are not modelled, and which characters beyond ASCII are printable is a parameter.
- FetchLoop.Fetcher.FetchWithFallback: what tryFetch makes of a page is computed for every pass beforehand, since it does not touch the pool.
- PoolObject.Pool.Acquire: the object is used by one caller at a time; interleavings are the subject of the step system. A slice of the source shares its array with later appends, in the object a stack is a value; `Compact` is where the sharing matters and works on an array.
- The remainder of the round-robin counter is taken by repeated subtraction (`Router.Rem`), which `Router.RemIsMod` proves equal to `%`.
- `Worker.Run` and the concurrent fetches are steps on values, since their goroutines interleave; the result list is one slot a task, and the outcome of a fetch stands for its whole result.
- Provider.Close in `Pool.Close`, provider replacement by a second `Register`, logging, tickers and their periods, fingerprints, evasion scripts, block detection, content types, tag copying, and the option wrappers: nothing to prove beyond their bodies.
