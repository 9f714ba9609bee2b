# Verification model of the stream-processing repository

This project models the parts of the repository where several steps, several processes or two implementations have to
agree, and proves what they keep. There are three groups.

**Stream ownership.** Workers claim a stream in a shared lock table with a token and a time-to-live, spawn a session
only once the claim is granted, renew it from a heartbeat timer, and release it when the session ends.
`LockTable` has the SQL statements as atomic steps of the table, `MemoryLocks` the in-process lock manager with its
eviction timers, `Sessions` one session as a transition system and `StreamSessions` the same as an object with its
loops. `Workers` puts sessions, the three maps of the registry, its timers and the lock connection together: one step
is the code between two awaits, calls and answers travel in order on the worker's one connection, and the answer to a
claim resumes all its waiters before anything else. `Registry`, `RegistryRuns`, `WorkerEffects` and
`RegistryOutcomes` prove its invariant, what each step does and sends, and what follows over whole runs,
`RegistryTraps` what breaks without the two assumptions it rests on, and `SessionRegistries` is the registry as an
object whose methods perform these steps. `Cluster` runs any number of
workers against one table under an explicit clock, with clock skew, lost calls and lost answers, and proves exclusion,
which `ClusterTraps` restates by the time calls arrive, with the delay that meets the bound; `Cadence` and
`CadenceTraps` prove exactly when a heartbeat cadence is enough.

**Data that has to agree with a simple reference.** `Like`, `Sql` and `Listing`: the SQL text that the listing builder
writes, parsed and evaluated under three-valued logic, against the in-memory filter chain. `Keyset`: the pending-event
cursor and the worker's poll loop against the table. `Pagination`: the client's page iterator against the list.
`Json`, `JsonReader` and `DeadLetters`: the canonical printer against an independent reader, the keys of dead letters
and the chain of writes. `Filters`,
`EventFilters` and `RedisFilters`: the event filter's local map against its in-process store, and against a Redis
hash with a channel and several workers, which `RedisWrites` follows through overlapping writes and joining workers.
`Slug`: the tag slug normaliser against words joined by dashes.

**Webhook deliveries.** `Webhooks`: the row of one delivery through attempts, schedule and manual retries, its attempt
budget and its 24 hours, and the retry sweep over the table. `WebhookSweeps`: what happens to the table is, row by row,
a run of that one row.

Classes stand where the source has objects it updates in place; their methods are proved to perform the steps of the
specification functions, about which the theorems are. What the outside world decides (whether a request comes back,
when an answer arrives, random tokens, the time, hash values, the case fold) is a parameter or a nondeterministic step.

## Where the code and the expectation differ

Each of these is proved for all inputs: what the code does, or the exact condition under which it does what is
expected. Where an input makes it plainer, a concrete run stands beside it.

- Re-entrant `acquire` is documented to refresh and return the existing token; both managers store a newly minted one
  (`MemoryLocks.MemoryLockManager.Acquire`, and `LockTable` where the owner may always claim again).
- Releasing a lapsed lease answers true from the table and false from memory, and only there do the two differ
  (`MemoryLocks.SameAnswers`).
- `errored` is final exactly when no `stop` is waiting (`Sessions.ErroredIsFinalUnlessStopWaits`); where it is not, that
  is harmless to a successor (`RegistryRuns.EvictedSessionsAreInert`).
- After a refused renewal the comment says that nothing is released, and that a release would be a no-op. Failing the
  session makes its state listener send the release all the same (`RegistryOutcomes.RefusalOutcome`); it is a no-op
  exactly when the row no longer matches, and otherwise removes the lapsed row (`LockTable.ReleaseAfterRefusal`).
- The session cap holds exactly when every claim fits beside the sessions and the claims in flight, which overlapping
  `route` calls do not see to (`RegistryRuns.CapIsKeptIffClaimsFit`, `RegistryTraps.OverlappingRoutesExceedTheCap`);
  a refused renewal reaches a session of another token exactly when the stream has changed hands by then, which needs
  answers out of order (`RegistryTraps.RefusalDisturbsIff`, `RegistryTraps.ReorderedAnswersFailTheSuccessor`).
- Two owners exclude each other as long as their last successes were sent, not received, less than ttl minus skew ago:
  a call that takes long to arrive shortens its own lease (`Cluster.Exclusion`, `ClusterTraps.DelayedClaimOverlaps`).
- A heartbeat strictly below the ttl is said to survive one missed renewal; it does exactly when two heartbeats fit into
  the ttl, so the default cadence with a ttl between 1000 and 2000 ms is accepted and can lose a stream to one lost
  renewal (`CadenceTraps.CadenceIsExact`, `CadenceTraps.DefaultCadenceIsExact`).
- A pending-event cursor drops microseconds, so rows that do not fall on a whole millisecond come again
  (`Keyset.PagingIsExact`, `Keyset.BurstNeverEnds`); a batch above 1000 is clamped by the server and then makes the
  worker stop after one page (`Keyset.PollOnce`).
- The iterator's cursor stands behind the current page, so resuming from it loses that page's unread rest
  (`Pagination.PaginatedIterator.GetCursor`).
- Dead-letter keys of different streams can collide when one stream name continues the other after a colon
  (`DeadLetters.StreamsShareAKey`); the decimal stream ids the API hands out never do
  (`DeadLetters.PlainNamesNeverShare`).
- After `setConfig` the next `allow` is said to observe the change. It does until the next call on that stream exactly if
  the install has returned or the store's value is absent or the same, and no older operation on the stream with another
  value is still waiting (`EventFilters.CallShowsUnlessOlderIsUnderWay`, `EventFilters.OlderValuesShow`).
- Workers that write one stream at once end with the hash's value exactly when the last write the hash took and the last
  one the channel carried leave the same (`RedisWrites.OverlappingWritersAgreeIff`,
  `RedisFilters.OverlappingWritersDisagree`).
- An install reads the hash before it subscribes, which its comment gives as protection against races. A clear in between
  is missed: the new worker follows the hash exactly when what it brings is still what the hash has, and later scans
  bring it to the hash exactly when all it is left with still has an entry there (`RedisWrites.SubscribeYieldsIff`,
  `RedisWrites.JoinerAfterScansIff`, `RedisFilters.InstallMissesAClear`).
- A scan that was overtaken can bring a cleared configuration back, exactly when its copy has another value on a stream
  that nothing is going to set right (`RedisFilters.OverlayKeepsYields`, `RedisFilters.StaleScanRestoresACleared`); and
  no scan ever takes an entry away (`RedisFilters.ScanRepairsWhatTheHashHas`, `RedisFilters.ScansNeverClear`).
- A slug cut right behind a dash is not its own slug (`Slug.IdempotentUnlessCutAtADash`).
- Deliveries of inactive webhooks stay due, and fifty of them stop the sweep until enough of those webhooks are active
  again (`Webhooks.InactiveBacklogStopsAllSweeps`); deleting a webhook deletes its deliveries, so it holds up nothing.
- A delivered webhook delivery is final exactly when no other attempt and no manual retry is still under way on it: a
  retry that has passed its check puts it back, and so does an attempt that then fails
  (`Webhooks.DeliveredIsFinalIff`, `Webhooks.RetryOvertakesSuccess`).
- The retry schedule goes by the count an attempt read when it started, which is the count of attempts only if no other
  was recorded meanwhile (`Webhooks.ScheduleFollowsCountIff`, `Webhooks.FirstSweepOverlaps`); the six attempts are
  exceeded only by those overtaken and by returns to pending (`Webhooks.OverlapBudget`).

## Model

| member | source | states |
|---|---|---|
| LockTable.StaleTokenNeverReturns | xstreamroll-processing/src/leader-election.ts:372-510 | Fencing: over every run of claims, renewals and releases by any workers with freshly minted tokens, an issued token that does not match its row never matches again |
| LockTable.LateCallIsHarmless | xstreamroll-processing/src/leader-election.ts:453-499 | After any such run a renewal or release with a stale token is refused and leaves the whole table as it is |
| LockTable.OthersRowsOnlyFallToExpiry | xstreamroll-processing/src/leader-election.ts:406-417 | A statement changes or removes another worker's row only by claiming that stream after the row has expired |
| LockTable.ReleaseAllFrees | xstreamroll-processing/src/leader-election.ts:500-510 | After releaseAll a worker has no row left and every other worker's row is as it was |
| LockTable.OwnerClaimsAgain | xstreamroll-processing/src/leader-election.ts:382-417 | An owner may claim its stream again at any time, lapsed or not; the row then has the new token and expiry, and the old token is refused at any later time |
| LockTable.UnexpiredRowIsStable | xstreamroll-processing/src/leader-election.ts:382-417 | A row whose owner is silent is untouched by any run of other workers' statements before its expiry |
| LockTable.OneWinner | xstreamroll-processing/src/leader-election.ts:382-417 | Of two workers racing for a claimable stream, the second to reach the table, however late, is denied exactly as long as the first one's lease lasts |
| LockTable.ReleaseAfterRefusal | xstreamroll-processing/src/session-registry.ts:411-430 | After a refused renewal the release is a no-op if and only if the row no longer matches; otherwise the row has lapsed and the release removes it |
| LockTable.LapsedRowIsReleased | xstreamroll-processing/src/session-registry.ts:412-415 | The comment that such a release would be a no-op fails on a lapsed row that still matches |
| LockTable.LateReleaseAfterRefusal | xstreamroll-processing/src/leader-election.ts:480-499 | If the row was another's or gone at the refusal, the release changes nothing however late it comes |
| MemoryLocks.MemoryLockManager.Install | xstreamroll-processing/src/leader-election.ts:177-179 | Replacing an entry clears the old eviction timer and arms one for the new token; entries and timers stay paired one to one |
| MemoryLocks.MemoryLockManager.Acquire | xstreamroll-processing/src/leader-election.ts:147-186 | Denied exactly when another worker's entry is unexpired; otherwise the entry is replaced under a newly minted token, also on re-entry by the owner |
| MemoryLocks.MemoryLockManager.Renew | xstreamroll-processing/src/leader-election.ts:188-209 | Succeeds exactly when the entry has the token, expired or not, and re-arms it |
| MemoryLocks.MemoryLockManager.Release | xstreamroll-processing/src/leader-election.ts:211-231 | Succeeds exactly when the entry has the token, and removes entry and timer |
| MemoryLocks.MemoryLockManager.ReleaseAll | xstreamroll-processing/src/leader-election.ts:233-240 | Empties the map and leaves no timer armed |
| MemoryLocks.MemoryLockManager.FireDueTimers | xstreamroll-processing/src/leader-election.ts:300-308 | Running every due eviction, in any order, leaves exactly the unexpired entries |
| MemoryLocks.TimelyCallAgrees | xstreamroll-processing/src/leader-election.ts:147-231 | With evictions on time, one call on the map answers as the table does if and only if it is not the release of an expired row, and always leaves the same unexpired rows |
| MemoryLocks.SameAnswers | xstreamroll-processing/src/leader-election.ts:147-308 | Over every run of one worker with evictions on time, the two managers' answers to call number i agree if and only if call i is not the release of a row that has expired |
| MemoryLocks.OverdueTimerRenews | xstreamroll-processing/src/leader-election.ts:188-190 | With an overdue eviction the map renews where the table refuses, exactly when the token is still stored and its lease has expired |
| Sessions.SettleKeepsValid | xstreamroll-processing/src/session.ts:158-223 | Publishing or dead-lettering the event in flight and taking the next one keeps the accepted order |
| Sessions.StepKeepsValid | xstreamroll-processing/src/session.ts:99-228 | Every public call and every resumption of the pump keeps the session invariant: accounting, no lost wakeup, queue bound, retry budget |
| Sessions.RunKeepsValid | xstreamroll-processing/src/session.ts:99-228 | So does every run, from any valid state |
| Sessions.EveryRunIsAccounted | xstreamroll-processing/src/session.ts:99-228 | At every point of every run: accepted = settled, in flight, queued and dropped, in that order; a non-empty queue has an active pump; nothing is tried more than maxRetries + 1 times, dead letters exactly that often |
| Sessions.NothingAcceptedAfterRunning | xstreamroll-processing/src/session.ts:110-111 | Once a session has left idle and running, no run makes it accept another event |
| Sessions.StopSettlesEverything | xstreamroll-processing/src/session.ts:123-131 | A stop that resolves in a run without fail has every accepted event published or dead-lettered |
| Sessions.NothingAcceptedAfterStop | xstreamroll-processing/src/session.ts:118-131 | From the call of stop on no run accepts another event |
| Sessions.PumpStepDecreasesWork | xstreamroll-processing/src/session.ts:154-224 | Each resumption of the pump strictly decreases a measure of queued events and retries left |
| Sessions.DrainIsBounded | xstreamroll-processing/src/session.ts:154-227 | With no further enqueue the pump takes at most that many resumptions and can only come to rest with an empty queue and everything settled or dropped |
| Sessions.StopDrains | xstreamroll-processing/src/session.ts:118-131 | A stop resolves at once exactly if the session has ended or its pump rests; otherwise, however publishing goes, the poll that finds the pump at rest stops the session, and none before it does, with everything accepted before the call settled |
| Sessions.TriesAreCalls | xstreamroll-processing/src/session.ts:177-222 | Over any run the tries of the settled events and of the one in flight are exactly the publish calls that returned |
| Sessions.DeadSessionsSettleAtMostOneMore | xstreamroll-processing/src/session.ts:142-228 | A terminal session with an empty queue stays so in every continuation and settles at most the event in flight |
| Sessions.FailureIsContained | xstreamroll-processing/src/session.ts:142-146 | After fail, whatever follows, at most the one event in flight is still published or dead-lettered, and nothing more is accepted |
| Sessions.ErroredIsFinalUnlessStopWaits | xstreamroll-processing/src/session.ts:123-146 | `errored` is final exactly when no stop is waiting: some continuation ends stopped if and only if one is |
| Sessions.ErroredCanBecomeStopped | xstreamroll-processing/src/session.ts:127-130 | A concrete run from a new session in which it is not |
| StreamSessions.StreamSession.constructor | xstreamroll-processing/src/session.ts:74-89 | A new session is idle, empty and accounted for |
| StreamSessions.StreamSession.Start | xstreamroll-processing/src/session.ts:99-103 | Starts an idle session and its pump, and does nothing in any other state |
| StreamSessions.StreamSession.Enqueue | xstreamroll-processing/src/session.ts:110-116 | Accepts exactly while running and below the depth bound, appending the event and waking an idle pump |
| StreamSessions.StreamSession.Stop | xstreamroll-processing/src/session.ts:123-131 | Up to its first wait: running turns to draining, and with no pump active the session is stopped at once, which `Sessions.NothingAcceptedAfterStop` and `Sessions.StopDrains` follow up |
| StreamSessions.StreamSession.StopPolls | xstreamroll-processing/src/session.ts:127-130 | A waiting stop resolves exactly when the pump is no longer active |
| StreamSessions.StreamSession.Fail | xstreamroll-processing/src/session.ts:142-146 | Drops the queue and errors the session from any state |
| StreamSessions.StreamSession.Pump | xstreamroll-processing/src/session.ts:150-158 | Takes the next event if no pump is active and the state allows it |
| StreamSessions.StreamSession.LoopHead | xstreamroll-processing/src/session.ts:154-158 | The loop takes the head of the queue while running or draining, and otherwise leaves the pump inactive |
| StreamSessions.StreamSession.PublishSettles | xstreamroll-processing/src/session.ts:182-222 | A success settles the event; a failure leads to backoff, or to the dead-letter write once the budget is spent |
| StreamSessions.StreamSession.BackoffEnds | xstreamroll-processing/src/session.ts:217-222 | After the backoff the same event is published again |
| StreamSessions.StreamSession.DeadLetterEnds | xstreamroll-processing/src/session.ts:201-213 | After the dead-letter write, failed or not, the event counts as settled and the loop goes on |
| StreamSessions.StreamSession.FailOnce | xstreamroll-processing/src/session.ts:191-222 | A failed call goes to its next try, through the backoff, or to the dead-letter write once the budget is spent |
| StreamSessions.StreamSession.SettleNow | xstreamroll-processing/src/session.ts:182-213 | The successful call or the finished dead-letter write settles the event and takes the next one |
| StreamSessions.StreamSession.PublishWithRetry | xstreamroll-processing/src/session.ts:177-223 | The retry loop settles the event with its first successful call, or as a dead letter after maxRetries + 1 failures, and is a legal run of the steps |
| StreamSessions.StreamSession.PumpToEnd | xstreamroll-processing/src/session.ts:150-228 | Both loops together settle the whole queue in order, each event as its first success or dead letter, and are a legal run of the steps |
| Registry.InitInv | xstreamroll-processing/src/session-registry.ts:64-110 | A new registry satisfies the registry invariant |
| Registry.RouteKeepsInv | xstreamroll-processing/src/session-registry.ts:129-163 | A route call keeps the invariant |
| Registry.RouteOutcome | xstreamroll-processing/src/session-registry.ts:129-163 | A route call sends a claim exactly when the stream has no session, no claim in flight and the cap allows one, and then under its new token; it maps nothing, and a caller waits exactly for a claim in flight |
| Registry.RouteReachesOneSession | xstreamroll-processing/src/session-registry.ts:130-135 | A route call changes no session but the one mapped for its stream, which gets the event |
| Registry.GrantKeepsInv | xstreamroll-processing/src/session-registry.ts:191-235 | Handling a granted claim keeps the invariant |
| RegistryOutcomes.GrantOutcome | xstreamroll-processing/src/session-registry.ts:191-235 | A granted claim maps its stream to one new session under the granted token, arms its one timer, and gives the session as many of its callers' events as it has room for, in the order of the calls; no other session changes and nothing is sent |
| RegistryOutcomes.OfferingFills | xstreamroll-processing/src/session.ts:102-118 | Events offered to a session one by one are taken from the first on until its queue is full, in order, and the first one goes straight to the pump |
| Registry.LaterResumesKeepInv | xstreamroll-processing/src/session-registry.ts:195-218 | The callers that shared a claim find their own token stored, so no duplicate release is ever sent |
| Registry.DenialKeepsInv | xstreamroll-processing/src/session-registry.ts:164-189 | Handling a denied or failed claim keeps the invariant |
| RegistryOutcomes.DenialOutcome | xstreamroll-processing/src/session-registry.ts:164-189 | It leaves no trace: its callers no longer wait, and nothing else changes |
| Registry.FireKeepsInv | xstreamroll-processing/src/session-registry.ts:402-410 | A timer that fires keeps the invariant |
| RegistryOutcomes.FireOutcome | xstreamroll-processing/src/session-registry.ts:402-410 | A timer that fires always finds its token still held, gives up its slot and sends the renewal of that token |
| Registry.RenewalKeepsInv | xstreamroll-processing/src/session-registry.ts:407-446 | Handling the answer to a renewal keeps the invariant |
| RegistryOutcomes.RearmOutcome | xstreamroll-processing/src/session-registry.ts:432-446 | An answer other than a refusal re-arms one timer if the stream is still held, which is then under the renewed token, and otherwise changes nothing |
| Registry.RefusalKeepsInv | xstreamroll-processing/src/session-registry.ts:411-431 | Handling a refused renewal of a mapped stream keeps the invariant |
| RegistryOutcomes.RefusalOutcome | xstreamroll-processing/src/session-registry.ts:411-431 | A refused renewal of a mapped stream errors the session of that token, unmaps the stream with its token, sends exactly one release of the token, and changes nothing else |
| RegistryOutcomes.RefusalReleasesOwnToken | xstreamroll-processing/src/session-registry.ts:348-431 | So in every run the release after a refusal names the token the refused renewal carried |
| Registry.EvictionKeepsInv | xstreamroll-processing/src/session-registry.ts:348-388 | The eviction of a mapped session that becomes terminal keeps the invariant |
| Registry.DrainFindsNothing | xstreamroll-processing/src/session-registry.ts:302-315 | When every session of a drain has stopped, the listeners have already emptied all maps and no timer is armed |
| Registry.FinishDrainKeepsInv | xstreamroll-processing/src/session-registry.ts:308-317 | Finishing a drain, with its final releaseAll, keeps the invariant |
| Registry.ActionKeepsInv | xstreamroll-processing/src/session-registry.ts:129-450 | Every step of a worker, in every interleaving, keeps the invariant |
| RegistryRuns.RunKeepsInv | xstreamroll-processing/src/session-registry.ts:129-450 | So does every run |
| RegistryRuns.RegistryAgreement | xstreamroll-processing/src/session-registry.ts:195-235 | In every reachable state sessions and lockTokens have the same keys, a stream has at most one armed timer, and every held token has exactly one of an armed timer and a renewal in flight |
| RegistryRuns.HeartbeatIsolation | xstreamroll-processing/src/session-registry.ts:402-431 | With answers in order, the answer to a renewal changes only the session its token was issued for, and only by refusal, across any number of re-acquisitions |
| RegistryRuns.EvictedSessionsAreInert | xstreamroll-processing/src/session-registry.ts:348-371 | Each session is evicted at most once, and an evicted one that goes on, even from errored to stopped, touches nothing but itself |
| RegistryRuns.EvictionReleasesOwnToken | xstreamroll-processing/src/session-registry.ts:348-371 | A mapped session that ends by a step of its own is unmapped, and exactly one release is sent, of its own token |
| RegistryRuns.RunKeepsSessionsValid | xstreamroll-processing/src/session-registry.ts:330-390 | Every session ever spawned keeps the session invariant inside the registry |
| RegistryRuns.RouteKeepsCapIffItFits | xstreamroll-processing/src/session-registry.ts:138-163 | A route call keeps sessions and claims in flight within the cap if and only if its claim fits beside them, which the code does not check |
| RegistryRuns.CapIsKeptIffClaimsFit | xstreamroll-processing/src/session-registry.ts:129-163 | With overlapping route calls they stay within the cap throughout a run if and only if every claim fits when it is made |
| RegistryRuns.RunKeepsCap | xstreamroll-processing/src/session-registry.ts:129-163 | In particular when route calls are serial |
| RegistryRuns.DepthIsBounded | xstreamroll-processing/src/session-registry.ts:272-278 | The summed queue depth is at most the number of sessions times the queue bound |
| RegistryRuns.BoundedLoad | xstreamroll-processing/src/worker.ts:38-229 | Under the worker's serial routing no run exceeds the session cap, nor the high-watermark in summed queue depth |
| RegistryTraps.OverlappingRoutesExceedTheCap | xstreamroll-processing/src/session-registry.ts:138-163 | Without serial routing the cap fails: a concrete run of two overlapping calls maps two sessions under a cap of one |
| RegistryTraps.RefusalDisturbsIff | xstreamroll-processing/src/session-registry.ts:411-431 | In whatever order answers are handled, a refused renewal changes a session of another token if and only if its stream is held under another token at that moment |
| RegistryTraps.ReorderedAnswersFailTheSuccessor | xstreamroll-processing/src/session-registry.ts:407-428 | Such a moment comes without the order of answers: a concrete run in which an old renewal's refusal errors the successor session |
| SessionRegistries.RouteAnswerTells | xstreamroll-processing/src/session-registry.ts:116-145 | The answer of a route call is what the call did: enqueued iff the mapped session, running and with room, took the event; rejected iff it took nothing; at capacity iff nothing is mapped, the cap is reached and nothing changed; waiting iff the event is now the last of those that wait; never locked |
| SessionRegistries.ClaimTells | xstreamroll-processing/src/session-registry.ts:158-236 | After the answer to a claim its callers are told locked exactly after a denial, the error exactly after a failed call, and after a grant enqueued exactly if they are among those the new session has room for, in the order of the calls |
| SessionRegistries.EnqueuedMeansAccepted | xstreamroll-processing/src/session-registry.ts:218-235 | A caller is told `enqueued` exactly when the mapped session has accepted its event, as the last one, and `rejected` otherwise |
| SessionRegistries.QueueDepthPick | xstreamroll-processing/src/session-registry.ts:272-278 | The summed depth does not depend on the order of visiting the sessions |
| SessionRegistries.QueueDepthCountsUnsettled | xstreamroll-processing/src/session-registry.ts:272-278 | In every reachable state each queue length, and their sum, counts exactly the events accepted and neither settled, in flight nor dropped |
| SessionRegistries.SessionRegistry.constructor | xstreamroll-processing/src/session-registry.ts:85-110 | A new registry is the initial worker state |
| SessionRegistries.SessionRegistry.EnqueueInto | xstreamroll-processing/src/session-registry.ts:130-135 | Hands the event to one session and answers enqueued or rejected as that session does |
| SessionRegistries.SessionRegistry.Route | xstreamroll-processing/src/session-registry.ts:129-163 | Performs the route step of the transition system and keeps the invariant; the immediate answers are as in the code |
| SessionRegistries.SessionRegistry.AcquireDeduplicated | xstreamroll-processing/src/session-registry.ts:244-258 | Joins the claim in flight for the stream, or sends one under a new token |
| SessionRegistries.SessionRegistry.ScheduleNext | xstreamroll-processing/src/session-registry.ts:393-400 | Arms and stores a timer exactly when the token is still the held one |
| SessionRegistries.SessionRegistry.Spawn | xstreamroll-processing/src/session-registry.ts:330-389 | Maps a new started session under the next id |
| SessionRegistries.SessionRegistry.ResumeRoute | xstreamroll-processing/src/session-registry.ts:191-235 | One caller resumes with its token as the transition system says, and is told the outcome of its enqueue |
| SessionRegistries.SessionRegistry.ClearTimer | xstreamroll-processing/src/session-registry.ts:365-369 | Clears the stream's stored timer, if there is one |
| SessionRegistries.SessionRegistry.LetGo | xstreamroll-processing/src/session-registry.ts:362-371 | The token goes, its timer is cleared, and its release is sent |
| SessionRegistries.SessionRegistry.OnTerminal | xstreamroll-processing/src/session-registry.ts:348-388 | The state listener acts only for the session that is still mapped |
| SessionRegistries.SessionRegistry.StepSession | xstreamroll-processing/src/session-registry.ts:348-390 | One step of a session together with its listener |
| SessionRegistries.SessionRegistry.Tick | xstreamroll-processing/src/session-registry.ts:402-410 | A fired timer renews only the token still held |
| SessionRegistries.SessionRegistry.OnRenewal | xstreamroll-processing/src/session-registry.ts:411-445 | A refusal fails the session mapped now; anything else re-arms |
| SessionRegistries.SessionRegistry.OnGrant | xstreamroll-processing/src/session-registry.ts:191-235 | All callers of a claim resume in order, with their results |
| SessionRegistries.SessionRegistry.OnClaim | xstreamroll-processing/src/session-registry.ts:158-235 | The callers of an answered claim resume with its outcome: their own results after a grant, the same denial or error otherwise |
| SessionRegistries.SessionRegistry.OnReply | xstreamroll-processing/src/session-registry.ts:407-446 | One answer is handled as the transition system says, whichever call it belongs to |
| SessionRegistries.SessionRegistry.OnAnswer | xstreamroll-processing/src/session-registry.ts:407-446 | The oldest answer is handled as the transition system says and keeps the invariant |
| SessionRegistries.SessionRegistry.TotalQueueDepth | xstreamroll-processing/src/session-registry.ts:272-278 | The sum of the mapped sessions' queues, which is the number of events they still owe |
| SessionRegistries.SessionRegistry.FinishDrainAll | xstreamroll-processing/src/session-registry.ts:308-317 | Empties every map, clears the stored timers, sends releaseAll; no timer stays armed |
| SessionRegistries.SessionRegistry.ClearAll | xstreamroll-processing/src/session-registry.ts:308-317 | All maps and stored timers go, and one releaseAll is sent |
| SessionRegistries.SessionRegistry.ClearMaps | xstreamroll-processing/src/session-registry.ts:309-315 | Empties the three maps and the stored timers |
| SessionRegistries.SessionRegistry.ClearHeartbeats | xstreamroll-processing/src/session-registry.ts:312-315 | Clears exactly the timers stored in the map |
| WorkerEffects.ActionEffects | xstreamroll-processing/src/session-registry.ts:129-450 | A step of a worker maps no stream except under a claim just granted, and adds at most one call, with the times of the step; a release names a session evicted before |
| RegistryOutcomes.ActionSendsOwn | xstreamroll-processing/src/session-registry.ts:129-450 | That call is the worker's own: a claim under a token never used before, a renewal of the token it holds, a release of the token it held until this step, or the final release |
| RegistryOutcomes.StaleNewsIsHarmless | xstreamroll-processing/src/session-registry.ts:195-218 | News under a token that is not held has no effect beyond itself: a timer only gives up its slot, a renewal's answer arms nothing and fails no ended session, and a caller under another token than the mapped one gives its own back |
| Cluster.OthersCannotUncover | xstreamroll-processing/src/leader-election.ts:406-499 | No call of another worker ends an unexpired lease |
| Cluster.OwnCallKeepsCovered | xstreamroll-processing/src/leader-election.ts:406-499 | A worker's own call that is harmless to a stream, as Cluster.HeadRequest shows of each, does not end its lease |
| Cluster.HeadRequest | xstreamroll-processing/src/session-registry.ts:348-450 | The call at the head of a connection is harmless to every mapped stream and every granted claim of its worker |
| Cluster.StepKeepsOk | xstreamroll-processing/src/session-registry.ts:129-450 | Every step of any worker, of the table or of time keeps each mapped session covered by a row of its owner for the length of its lease |
| Cluster.RunKeepsOk | xstreamroll-processing/src/session-registry.ts:129-450 | So does every timed run of any number of workers, with lost calls, lost replies and clock skew |
| Cluster.ReplyTells | xstreamroll-processing/src/leader-election.ts:372-499 | A call that goes through is answered yes exactly if it took effect; a lost one throws, and took effect exactly if only its reply was lost |
| Cluster.Exclusion | xstreamroll-processing/src/leader-election.ts:406-477 | In every reachable state, of two workers mapping one stream at least one sent its last successful claim or renewal ttl minus skew ago or more |
| Cluster.TimelyOwnerHasTheRow | xstreamroll-processing/src/leader-election.ts:453-477 | A worker inside that limit has the unexpired row of every stream it maps, under the token it holds |
| ClusterTraps.LeaseIsRecent | xstreamroll-processing/src/leader-election.ts:372-420 | A lease is as recent as the last success that reached the table, up to the delay of calls |
| ClusterTraps.ExclusionByArrival | xstreamroll-processing/src/leader-election.ts:406-477 | Counted from arrival: when no call takes longer than a delay d, of two workers mapping one stream at least one had its last success reach the table ttl minus skew minus d ago or more |
| ClusterTraps.DelayedClaimOverlaps | xstreamroll-processing/src/leader-election.ts:373-375 | That bound is met exactly: the expiry counts from before the sending, so a claim that arrives late is taken over while its success is recent, and both workers map the stream |
| Cadence.CadenceSurvives | xstreamroll-processing/src/session-registry.ts:392-450 | With instant calls, timers on time and no skew, if (tolerated + 1) heartbeats fit into the ttl then, with at most that many renewals lost in a row, no stream ever has two sessions and no owner loses its row |
| CadenceTraps.LosesTheStream | xstreamroll-processing/src/session-registry.ts:402-446 | Otherwise a worker whose renewals are lost one after another, within the tolerated number, has its row expire and another worker map its stream |
| CadenceTraps.LossesCostTheStream | xstreamroll-processing/src/session-registry.ts:402-446 | Such a run exists from the start for every cadence that does not fit |
| CadenceTraps.CadenceIsExact | xstreamroll-processing/src/session-registry.ts:18-22 | A cadence survives the tolerated losses in all such runs if and only if one heartbeat more than those fits into the ttl |
| Cadence.ConfiguredIsUsed | xstreamroll-processing/src/session-registry.ts:96-102 | A configured cadence is used exactly if it is below the ttl, and refused otherwise |
| Cadence.DefaultToleratesOneMiss | xstreamroll-processing/src/session-registry.ts:96-102 | The cadence chosen without a configured one exists exactly when ttl exceeds 1000 ms, is at least a second and from 3000 ms on a third of the ttl, and fits twice below the ttl exactly when it exceeds 2000 ms |
| Cadence.DefaultCadenceSurvivesOneMiss | xstreamroll-processing/src/session-registry.ts:96-102 | With the cadence the constructor chooses by default and ttl above 2000 ms one lost renewal in a row never leads to two sessions |
| CadenceTraps.DefaultCadenceIsExact | xstreamroll-processing/src/session-registry.ts:96-102 | An accepted default cadence survives one lost renewal if and only if ttl exceeds 2000 ms |
| CadenceTraps.ConfiguredCadenceIsExact | xstreamroll-processing/src/session-registry.ts:96-102 | An accepted configured cadence survives the losses for which one heartbeat more fits into the ttl, and no others |
| Like.SearchPatternMatches | api/src/streams/repository/streams-db.repository.ts:450-452 | A value matches `%` + escape(q) + `%` exactly when q occurs in it |
| Like.FoldEscape | api/src/streams/repository/streams-db.repository.ts:450-452 | Escaping commutes with a clean case fold that also keeps `_` |
| Like.LiteralSearch | api/src/streams/repository/streams-db.repository.ts:125-131 | Under ILIKE the bound pattern matches exactly the values whose folded text contains the folded query, which is what the in-memory search asks |
| Like.UnescapedTextIsNotLiteral | api/src/streams/repository/streams-db.repository.ts:122-124 | Without escaping the agreement fails, for the query `%` and every value without one |
| Like.LiteralSearchIff | api/src/streams/repository/streams-db.repository.ts:450-452 | All searches are literal under a case fold if and only if it keeps `%` and the escape character and makes no special character out of an ordinary one; where it takes `_` does not matter |
| Like.FoldMustKeepSpecials | api/src/streams/repository/streams-db.repository.ts:450-452 | A failing instance: a character folding to `%` |
| Sql.LaterParamsDoNotMatter | api/src/streams/repository/streams-db.repository.ts:150-157 | Parameters appended behind those a condition uses do not change its truth value |
| Listing.PushConditions | api/src/streams/repository/streams-db.repository.ts:102-140 | Pushing conditions and parameters one by one gives the specified lists |
| Listing.ListPaginated | api/src/streams/repository/streams-db.repository.ts:95-157 | The statement has the joined text and the pushed parameters, and LIMIT and OFFSET always number the last two |
| Listing.JoinParsesAsAnd | api/src/streams/repository/streams-db.repository.ts:141-141 | The joined text parses, by precedence, as the conjunction of the conditions |
| Listing.BuildMeans | api/src/streams/repository/streams-db.repository.ts:101-140 | Every pushed text denotes a condition over parameters already pushed, and all of them hold of a row exactly when the in-memory filters keep it |
| Listing.QueryKeepsWhatFiltersKeep | api/src/streams/repository/streams-db.repository.ts:95-157 | Meaning preserved: for every filter, viewer, row and tag relation the WHERE text selects a row under three-valued logic exactly when the in-memory chain keeps it, with or without the page's parameters |
| Listing.ListFilteredHead | api/src/streams/repository/streams.repository.ts:128-173 | The chain of filters treats each row by itself |
| Listing.SameListing | api/src/streams/repository/streams.repository.ts:128-190 | Over any table the query's rows are the filter chain's rows, in the same table order, so the totals agree |
| Listing.ListedIff | api/src/streams/repository/streams.repository.ts:122-173 | Who sees what: a listing has exactly the streams that are the viewer's own, or public unless only own ones are asked for, with the status, visibility and tag asked for and the searched text in name or description |
| Listing.NoTagRepositoryIsEmptyTags | api/src/streams/repository/streams.repository.ts:161-169 | Without a tag repository the in-memory listing is that of an empty tag table |
| Keyset.Clamp | api/src/streams/streams.controller.ts:106-106 | The controller's limit lies in 1..1000 and is the requested one exactly inside that range |
| Keyset.TailAfter | api/src/streams/repository/streams-db.repository.ts:311-325 | The rows after a cursor are a tail of the ordered table |
| Keyset.CursorLeaves | api/src/streams/repository/streams-db.repository.ts:335-341 | A cursor cut from a whole-millisecond row leaves exactly the rows behind it; from any other row it leaves that row again |
| Keyset.PagingIsExact | api/src/streams/repository/streams-db.repository.ts:299-345 | Following nextCursor gives every row once and in order if and only if every full page ends on a whole-millisecond timestamp |
| Keyset.WholeMillisecondsPageOnce | api/src/streams/repository/streams-db.repository.ts:299-345 | With the timestamps the service stamps, the walk is over within |table| + 1 pages and has given the table exactly |
| Keyset.BurstNeverEnds | api/src/streams/repository/streams-db.repository.ts:327-341 | A page full of rows inside one millisecond is given again and again, with a cursor every time |
| Keyset.PageTakesTheLeast | api/src/streams/repository/streams-db.repository.ts:321-333 | A page holds the least rows after its cursor, and the next cursor separates them from all others |
| Keyset.InsertsSkipAndRepeatNothing | api/src/streams/repository/streams-db.repository.ts:299-345 | With rows inserted between pages no row comes twice, and once the cursor is null every row present at the start has come |
| Keyset.NextPage | xstreamroll-processing/src/worker.ts:258-271 | The worker's own tests stop the loop after a page exactly when the batch exceeds the clamp, the table is exhausted, or the high-watermark is reached |
| Keyset.PollOnce | xstreamroll-processing/src/worker.ts:168-272 | One poll takes whole pages in order, each row once, and stops only for a reason given: watermark, shutdown, failed request, short page; for a batch up to 1000 the short-page test agrees with the null cursor |
| Pagination.PaginatedIterator.constructor | xstreamroll-sdk/src/pagination.ts:76-82 | Options below one are raised to one, missing ones default to 50, 1 and 1000 |
| Pagination.PaginatedIterator.Abort | xstreamroll-sdk/src/pagination.ts:99-103 | An aborted iterator yields nothing more |
| Pagination.PaginatedIterator.Next | xstreamroll-sdk/src/pagination.ts:99-143 | Yields exactly the next item of the window; is done only at its end or when aborted; a failed request changes nothing; pages are requested in order, none beyond maxPages and, but for the first, none behind the end |
| Pagination.PaginatedIterator.GetCursor | xstreamroll-sdk/src/pagination.ts:89-93 | Null exactly when exhausted; resuming from it leaves out exactly the unread rest of the current page |
| Pagination.PaginatedIterator.ToArray | xstreamroll-sdk/src/pagination.ts:150-156 | Ends, and gives the whole window unless aborted or a request fails, and then a prefix of it |
| Pagination.EndReached | xstreamroll-sdk/src/pagination.ts:106-116 | Past the total or past maxPages nothing of the window is left |
| Pagination.PageFetched | xstreamroll-sdk/src/pagination.ts:117-133 | Fetching a page keeps the place in the window, and an empty page means its end |
| Pagination.WholeList | xstreamroll-sdk/src/pagination.ts:76-82 | The default window of a list that fits into maxPages is the list |
| Json.UnicodeEscapeInjective | xstreamroll-processing/src/dead-letter-store.ts:99-103 | The six-character escape tells every code unit |
| Json.QuoteTells | xstreamroll-processing/src/dead-letter-store.ts:99-103 | A quoted text can be told from every other one, whatever follows it |
| Json.SortForgetsOrder | xstreamroll-processing/src/dead-letter-store.ts:96-98 | Objects with the same keys are printed with the same key order |
| Json.PrintTells | xstreamroll-processing/src/dead-letter-store.ts:91-103 | A printed value can be told from every other up to key order, wherever it stands in a larger text |
| Json.EquivalentPrintsSame | xstreamroll-processing/src/dead-letter-store.ts:91-103 | Values equal up to key order print the same text |
| Json.Canonical | xstreamroll-processing/src/dead-letter-store.ts:91-103 | stableStringify is canonical: two values print the same text if and only if they are equal up to key order and up to what JSON writes as null |
| Json.CanonicalForJson | xstreamroll-processing/src/dead-letter-store.ts:91-103 | For values with no undefined and no infinite number, if and only if they are equal up to key order |
| JsonReader.ReadsText | xstreamroll-processing/src/dead-letter-store.ts:99-103 | A text as it is quoted, read by the escapes of RFC 8259, is the text |
| JsonReader.ReadsBack | xstreamroll-processing/src/dead-letter-store.ts:91-103 | What is printed for a value, wherever it stands, is read as that value up to key order, and reading stops where it ended |
| JsonReader.RoundTrip | xstreamroll-processing/src/dead-letter-store.ts:91-103 | The printed text is JSON, and reading it gives back a value equal up to key order and up to what JSON writes as null |
| JsonReader.KeysAscend | xstreamroll-processing/src/dead-letter-store.ts:96-98 | The keys of every printed object ascend |
| JsonReader.LessIsByCodeUnit | xstreamroll-processing/src/dead-letter-store.ts:98 | In the order of their code units: the first difference decides, and a text stands before its continuations |
| DeadLetters.AnonymousKeys | xstreamroll-processing/src/dead-letter-store.ts:84-89 | Events without an id share a key exactly when equal up to key order, as far as the hash is injective, and never with an event that has an id |
| DeadLetters.IdentifiedKeys | xstreamroll-processing/src/dead-letter-store.ts:84-85 | An event with an id is keyed by stream, colon and id, whatever else it holds |
| DeadLetters.StreamsShareAKey | xstreamroll-processing/src/dead-letter-store.ts:84-85 | Events of two different streams can share a key if and only if one stream's name continues the other's after a colon |
| DeadLetters.PlainNamesNeverShare | xstreamroll-processing/src/dead-letter-store.ts:84-85 | So streams whose names have no colon, such as decimal ids, never share a key |
| DeadLetters.OneStreamIdsDecide | xstreamroll-processing/src/dead-letter-store.ts:84-85 | Within one stream the id decides |
| DeadLetters.FirstEventLastError | xstreamroll-processing/src/dead-letter-store.ts:27-55 | The file has one record for each key of a stored call, with the first such event and the last such error, attempts and time; a call that failed leaves no trace and stops no other |
| DeadLetters.FileDeadLetterStore.constructor | xstreamroll-processing/src/dead-letter-store.ts:23-25 | The store starts from the empty file |
| DeadLetters.FileDeadLetterStore.RecordDead | xstreamroll-processing/src/dead-letter-store.ts:27-55 | A call is appended to the chain's history, and resolves exactly when the file could be read and written |
| Filters.LastWriterWins | xstreamroll-processing/src/pipeline/event-filter.ts:83-100 | After any changes a stream has what the last change to it said, or what it had |
| Filters.WireKeepsChanges | xstreamroll-processing/src/pipeline/event-filter-store.ts:354-390 | Every change survives being written to the wire and parsed, whoever sends it |
| Filters.FieldNames | xstreamroll-processing/src/pipeline/event-filter-store.ts:354-390 | The fields of a payload have the names the other workers read |
| Filters.OnlyNullClears | xstreamroll-processing/src/pipeline/event-filter-store.ts:363-390 | A payload is taken for a clear exactly when it has a stream id and says null outright |
| EventFilters.StepKeepsAgreement | xstreamroll-processing/src/pipeline/event-filter.ts:83-167 | Every step keeps it: before the install the map is what the calls made of it, afterwards every stream without a waiting operation has its merged value |
| EventFilters.CallsAreAccounted | xstreamroll-processing/src/pipeline/event-filter.ts:127-157 | No call is forgotten or reordered: lost with a failed install, executed, or still waiting |
| EventFilters.QuietFilter | xstreamroll-processing/src/pipeline/event-filter.ts:83-167 | Once nothing waits, store and filter map are the executed calls applied to the snapshot and to the merged map |
| EventFilters.QuietFilterEqualsStore | xstreamroll-processing/src/pipeline/event-filter.ts:83-167 | From an empty map and a successful install the filter map equals the store and last-writer-wins over the snapshot |
| EventFilters.QuietFilterDiffersByStaleEntries | xstreamroll-processing/src/pipeline/event-filter.ts:58-62 | In general they are equal if and only if every stream known before, or learnt from a lost call, is in the snapshot or was touched by an executed call |
| EventFilters.CallShowsUnlessOlderIsUnderWay | xstreamroll-processing/src/pipeline/event-filter.ts:75-100 | After a call the filter shows its value until the next call on that stream, whatever happens meanwhile, if and only if at the call the install had returned or the store's value was absent or the same, and every operation waiting for the stream leaves that value too |
| EventFilters.CallShowsInEveryRun | xstreamroll-processing/src/pipeline/event-filter.ts:75-100 | So at every call in every run of a new filter |
| EventFilters.OlderValuesShow | xstreamroll-processing/src/pipeline/event-filter.ts:83-89 | A failing instance: two calls before the install returns show b, the snapshot's value, a, and b again |
| EventFilters.MemoryFilterConfigStore.constructor | xstreamroll-processing/src/pipeline/event-filter-store.ts:94-97 | The store starts with its content and no listener |
| EventFilters.MemoryFilterConfigStore.Install | xstreamroll-processing/src/pipeline/event-filter-store.ts:98-107 | Registers the callback and answers with a copy |
| EventFilters.MemoryFilterConfigStore.SetConfig | xstreamroll-processing/src/pipeline/event-filter-store.ts:109-115 | Writes the entry and notifies a registered listener of it |
| EventFilters.MemoryFilterConfigStore.ClearConfig | xstreamroll-processing/src/pipeline/event-filter-store.ts:117-120 | Removes the entry and notifies a registered listener of it |
| EventFilters.EventFilter.constructor | xstreamroll-processing/src/pipeline/event-filter.ts:48-50 | A new filter is empty and not started |
| EventFilters.EventFilter.EnsureStarted | xstreamroll-processing/src/pipeline/event-filter.ts:127-139 | Starts the install once |
| EventFilters.EventFilter.SetConfig | xstreamroll-processing/src/pipeline/event-filter.ts:83-89 | Updates the local map at once and defers the store's write |
| EventFilters.EventFilter.ClearConfig | xstreamroll-processing/src/pipeline/event-filter.ts:97-100 | Removes locally at once and defers the store's write |
| EventFilters.EventFilter.InstallReturns | xstreamroll-processing/src/pipeline/event-filter.ts:141-151 | Lays the snapshot over the local map |
| EventFilters.EventFilter.InstallThrows | xstreamroll-processing/src/pipeline/event-filter.ts:127-139 | A failed install rejects the waiting calls and allows another start |
| EventFilters.EventFilter.RunDeferred | xstreamroll-processing/src/pipeline/event-filter.ts:153-157 | The next deferred operation reaches the store and comes back through the callback |
| EventFilters.EventFilter.ApplyChange | xstreamroll-processing/src/pipeline/event-filter.ts:159-167 | A notified change is applied to the map |
| EventFilters.EventFilter.Allow | xstreamroll-processing/src/pipeline/event-filter.ts:107-113 | An event is dropped exactly when its stream's configuration lists its type |
| RedisFilters.StepKeepsConsistent | xstreamroll-processing/src/pipeline/event-filter-store.ts:203-258 | With one writer at a time per stream, subscribers attached and nothing lost, every step keeps it: applying the undelivered messages to a worker's map yields the hash, absences included |
| RedisFilters.ReconcileKeepsConsistent | xstreamroll-processing/src/pipeline/event-filter-store.ts:318-340 | A reconcile with nothing between its read and its merge keeps it at any moment |
| RedisFilters.OverlayKeepsYields | xstreamroll-processing/src/pipeline/event-filter-store.ts:318-332 | Merging a copy of the hash, however old, keeps it if and only if the copy has no outdated value for a calm stream that no undelivered message is going to set right |
| RedisFilters.RunKeepsConsistent | xstreamroll-processing/src/pipeline/event-filter-store.ts:203-340 | So does every orderly run |
| RedisFilters.QuietWorkersHoldTheHash | xstreamroll-processing/src/pipeline/event-filter-store.ts:203-340 | When an orderly run has come to rest, every worker's map is the hash |
| RedisFilters.ScanRepairsWhatTheHashHas | xstreamroll-processing/src/pipeline/event-filter-store.ts:310-340 | Whatever was lost or overtaken before, after a scan at rest a worker agrees on every stream in the hash, and altogether if and only if it knew no other stream |
| RedisFilters.ScansNeverClear | xstreamroll-processing/src/pipeline/event-filter-store.ts:310-332 | An entry the hash does not have outlives every scan |
| RedisFilters.OverlappingWritersDisagree | xstreamroll-processing/src/pipeline/event-filter-store.ts:241-249 | A failing instance: two writers of one stream at once leave every worker with the value the hash does not have |
| RedisWrites.QuietMaps | xstreamroll-processing/src/pipeline/event-filter-store.ts:241-258 | However writes overlap, once all are published and taken the hash is the changes in the order it took them, and a worker's map is the changes in the order of the channel over what it was heading for at the start |
| RedisWrites.OverlappingWritersAgreeIff | xstreamroll-processing/src/pipeline/event-filter-store.ts:241-258 | So workers that agreed with the hash agree with it again if and only if, on every stream, the last change the hash took and the last change the channel carried leave the same value |
| RedisFilters.StaleScanRestoresACleared | xstreamroll-processing/src/pipeline/event-filter-store.ts:318-332 | A clear between a scan's read and its merge is undone in that worker |
| RedisFilters.InstallMissesAClear | xstreamroll-processing/src/pipeline/event-filter-store.ts:212-221 | A clear between an install's read and its subscription never reaches the new worker, though the comment there says the order avoids races |
| RedisWrites.SubscribeYieldsIff | xstreamroll-processing/src/pipeline/event-filter-store.ts:211-239 | A worker that ends its install follows the hash from then on if and only if what it brings is what the hash has now, on every stream that nobody is about to change |
| RedisWrites.JoinerHoldsTheHashIff | xstreamroll-processing/src/pipeline/event-filter-store.ts:211-239 | Once the writes since have come to rest it holds the hash if and only if, on every stream, hash and channel end alike and it brought the hash's value or a write has been published since |
| RedisWrites.JoinerAfterScansIff | xstreamroll-processing/src/pipeline/event-filter-store.ts:310-340 | After a later scan it holds the hash if and only if every stream it is left with, brought or published since, has an entry there |
| RedisWrites.FreshJoinerAfterScansIff | xstreamroll-processing/src/pipeline/event-filter-store.ts:310-340 | In particular, if nothing is written any more, if and only if every stream it read on joining still has an entry |
| Slug.UncutIsJoinedWords | api/src/tags/slugify.ts:16-20 | Before the cut a slug is the words of the folded text joined by single dashes |
| Slug.UncutKeepsLetters | api/src/tags/slugify.ts:16-21 | It has all the lower-case letters and digits of the folded text, in order, and no others |
| Slug.EmptyForPunctuation | api/src/tags/slugify.ts:10-13 | A slug is empty exactly when the folded text has no letter or digit |
| Slug.NormalForm | api/src/tags/slugify.ts:14-23 | Every slug has only lower-case letters, digits and single dashes, no leading dash and at most 64 characters; it ends in a dash exactly when the cut falls behind one |
| Slug.IdempotentUnlessCutAtADash | api/src/tags/slugify.ts:20-22 | Slugging again changes nothing if and only if the uncut text is at most 64 long or has no dash in place 64 |
| Slug.TwiceIsThrice | api/src/tags/slugify.ts:14-23 | Slugging twice equals slugging three times, for all inputs |
| Slug.OwnSlug | api/src/tags/slugify.ts:14-23 | The texts that are their own slug are exactly those in normal form without a trailing dash |
| Slug.CutAtADash | api/src/tags/slugify.ts:20-22 | A family of texts whose slug is not its own slug |
| Webhooks.NextAttemptAfter | api/src/webhooks/webhooks.service.ts:293-299 | There is a next attempt exactly up to the fifth failure |
| Webhooks.DelaysTakeADay | api/src/webhooks/webhooks.service.ts:25-39 | The retries come 1, 6, 36 and 216 minutes and 24 hours after the first failure |
| Webhooks.RecordedOutcome | api/src/webhooks/repository/webhook-deliveries-db.repository.ts:133-165 | A 2xx response ends the delivery, anything else leaves it pending for its next delay while fewer than five attempts were seen before, and then fails it; each record counts one attempt and keeps its code |
| Webhooks.StepKeepsBudget | api/src/webhooks/repository/webhook-deliveries-db.repository.ts:120-191 | Every step of a serial run keeps the budget, and none changes a delivered row |
| Webhooks.AttemptBudget | api/src/webhooks/webhooks.service.ts:150-299 | In every serial run attempts never exceed 6 plus the requeues from failed, failed means at least 6, a delivered row is final, and there is a next attempt exactly while pending |
| Webhooks.NewDeliveryBudget | api/src/webhooks/repository/webhook-deliveries-db.repository.ts:58-75 | In particular for every serial run from the creation of a delivery |
| Webhooks.NotGivenUpWithinADay | api/src/webhooks/webhooks.service.ts:19-39 | A delivery nobody requeued fails after exactly 6 attempts and no earlier than 24 hours after the first one was recorded |
| Webhooks.ScheduleFollowsCountIff | api/src/webhooks/webhooks.service.ts:264-280 | At every record of every run the next attempt is the one due by the count of attempts if and only if the attempt succeeded, no other was recorded since it started, or it had started after the last delay |
| Webhooks.OverlapBudget | api/src/webhooks/webhooks.service.ts:150-299 | In every run, however attempts, sweeps and retries overlap, attempts never exceed 6 plus those overtaken by another record plus the returns to pending; in serial runs the latter are exactly the requeues from failed |
| Webhooks.DeliveredIsFinalIff | api/src/webhooks/webhooks.service.ts:157-168 | A delivered row stays delivered, and is never attempted again, if and only if no attempt and no manual retry is still under way on it |
| Webhooks.FirstSweepOverlaps | api/src/webhooks/repository/webhook-deliveries-db.repository.ts:65-67 | A row is due from its creation, so a sweep can overlap the first attempt: two attempts are recorded and the schedule goes on as after one, a failing instance of `Webhooks.ScheduleFollowsCountIff` |
| Webhooks.RetryOvertakesSuccess | api/src/webhooks/webhooks.service.ts:157-168 | A manual retry that checked the status before a running attempt succeeded makes the delivered row due again, a failing instance of `Webhooks.DeliveredIsFinalIff` |
| Webhooks.BatchTakesTheOldest | api/src/webhooks/repository/webhook-deliveries-db.repository.ts:120-129 | A due delivery is left out of a batch exactly when `limit` older ones are due |
| Webhooks.InactiveBacklogStopsAllSweeps | api/src/webhooks/webhooks.service.ts:214-229 | Fifty due deliveries of webhooks that stay inactive hold up every younger delivery for as long: whatever is created, retried by hand or switched on and off besides, no sweep attempts one |
| Webhooks.ReactivationFreesTheBacklog | api/src/webhooks/webhooks.service.ts:214-229 | A due delivery of a webhook active at the sweep is attempted exactly when fewer than fifty older ones are due |
| WebhookSweeps.DeliveryRuns | api/src/webhooks/webhooks.service.ts:212-282 | Whatever happens to the table, the row of each delivery is what the machine of one delivery makes of it in a serial run: a sweep is the begin of an attempt with the count in the row, and its record |
| WebhookSweeps.SweepKeepsBudget | api/src/webhooks/webhooks.service.ts:212-282 | A sweep keeps the budget of every delivery, whenever its attempts come back |
| WebhookSweeps.TableKeepsBudget | api/src/webhooks/webhooks.service.ts:145-282 | Over any sweeps, creations and manual retries no delivery is attempted more than six times and once more for each requeue from failed, and a delivered one stays as it is |
| WebhookSweeps.SweepsGiveUpAfterADay | api/src/webhooks/webhooks.service.ts:19-39 | A new delivery nobody requeues is given up by the sweeps only after six attempts, the last no earlier than 24 hours after the first |
| Webhooks.WebhooksService.Create | api/src/webhooks/repository/webhook-deliveries-db.repository.ts:58-75 | A new delivery is pending, unattempted and due at once |
| Webhooks.WebhooksService.FindDuePending | api/src/webhooks/repository/webhook-deliveries-db.repository.ts:120-134 | The loop finds the first `limit` due deliveries in order of creation |
| Webhooks.WebhooksService.AttemptDelivery | api/src/webhooks/webhooks.service.ts:234-283 | Records the outcome on that delivery alone, with the schedule following the attempt count that was read |
| Webhooks.WebhooksService.SweepRetries | api/src/webhooks/webhooks.service.ts:214-229 | Attempts exactly the deliveries of the batch whose webhook is active, once each, and leaves all others as they were |
| Webhooks.WebhooksService.RetryDelivery | api/src/webhooks/webhooks.service.ts:150-176 | Not found, conflict for a delivered row, or requeued and due at once, changing that row alone |

## Left out

- Transports and drivers (HTTP, Redis and PostgreSQL clients, files, sockets), tracing, logging and metrics: they appear
  as tables, queues, parameters and steps that may fail.
- The active-locks gauge: a lost lock is subtracted twice, so it does not say how many locks are held.
- A drain that begins while a claim is in flight: the worker awaits its poll loop before it drains
  (xstreamroll-processing/src/worker.ts:361-367), so `BeginDrain` is a step only when nobody waits for a claim.
- The calls of `stop` that `drainAll` makes in one go: each is a step of its own, so the model has also the runs in which
  other steps come between them.
- How long a session backs off between two publish calls: a backoff is a suspension that ends at some time.
- The bounded map of routing errors that thins out the worker's log.
- Sessions inside the registry object: `SessionRegistries.SessionRegistry` keeps them as values under their ids, not as
  references to `StreamSession` objects; aliasing between the two objects is not captured.
- Event listeners that throw inside the pump: they are taken not to throw.
- `close` of the lock managers and stores, schema set-up, and the entry points only the repository's own tests use.
- The worker's start-up, shutdown and signal handling around the registry; malformed events and the event filter's place
  in the poll loop only drop events before they are routed.
- The legacy array response of the poll with its `"{}"` cursor.
- The text of SQL: the listing is modelled from tokens on; splitting the text into tokens and the other clauses of the
  statement are not.
- Tie order among equal creation times, and the sort by creation time itself: listings are compared in table order.
- Case mapping and Unicode normalisation: a fold is one character to one character in `Like` and `Listing`, and one
  character to some text in `Slug`; what the fold does to other characters is open.
- Keyset.PollOnce: covers a table that does not change during the poll and full pages that end on whole milliseconds,
  because outside that the walk need not end; `Keyset.PagingIsExact` and the inserts lemma say what happens there.
- Rows deleted while the pending events are paged.
- Pagination: items that are themselves undefined, and lists that change between pages.
- The number texts of JavaScript: a number is the text it prints; the JSON parser and the trip of stored events through
  the dead-letter file are not modelled.
- `list` of the dead-letter store, which sorts the records by time.
- DeadLetters.AnonymousKeys: assumes of the hash only that it does not collide on the two texts at hand.
- EventFilters.QuietFilter: replacing the store while operations wait (`setStore` in mid-flight) is not modelled; the
  content the map has beforehand is arbitrary.
- RedisWrites.OverlappingWritersAgreeIff: is about runs of writes that all go through and arrive, without a scan in
  between; what a lost message, a call that throws or an overtaken scan leaves behind is in
  `RedisFilters.ScanRepairsWhatTheHashHas` and `RedisFilters.OverlayKeepsYields`.
- Redis parse errors, reconnects and the channel name check; a lost message is a step of the model.
- Database errors between an attempt and its record in the webhook service, which make a second record.
- Webhooks.AttemptBudget: is about runs in which nothing else starts on a delivery while an attempt or a manual retry is
  under way, because with overlaps a delivered row need not be final; `Webhooks.OverlapBudget` and
  `Webhooks.DeliveredIsFinalIff` are about all runs.
- Deleting webhooks and deliveries, and the dispatch of an event to several subscriptions.
- Controllers, guards, authentication, e-mail, analytics queries, notification expiry, the retry helper of the client,
  the policy validator and the web application: wiring, or easy members only.
