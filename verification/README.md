# Verified model of the music backend's protocols

A Dafny model of the parts of the backend in which several processes share state and a wrong
order of steps would lose or duplicate something: the leased job queue and its worker, login
sessions, the WebSocket hub and its broker, keyset pages, playback reservations, the cache store,
the rate limiter, audio replacement, and the two audio validators.

`dafny verify dfyconfig.toml` checks everything.

## How it is organised

| file | what it holds |
|---|---|
| `JobRecords.dfy` | job records as the Lua scripts decode and encode them; backoff |
| `JobQueue.dfy` | the Redis scripts of the queue: a function for each, and a class whose methods update the five keys in place |
| `QueueLaws.dfy` | how often a job is in the queue, and how every script changes that |
| `QueueBatches.dfy` | what promotion and recovery take away |
| `QueueRuns.dfy` | whole runs of scripts: ownership, delivery budget, termination measure, order of the lists |
| `QueueCuts.dfy` | the scripts as single Redis commands, stopped anywhere; and runs of such scripts |
| `Worker.dfy` | one job in a worker: handler, heartbeat, cancellation, settlement |
| `JobSystem.dfy` | queue, any number of workers, crashes and a faulty network together; conservation and backoff |
| `LeaseTiming.dfy` | when heartbeat renewals reach Redis; and what that means among everybody else's scripts |
| `Sessions.dfy` | the session scripts on one hash with one time to live, and the ideal table they refine |
| `AuthService.dfy` | login, refresh and password reset as the code of one request |
| `AuthProtocol.dfy` | the same requests interleaved over two stores; and undisturbed |
| `Hub.dfy`, `HubRuns.dfy` | the hub loop, and what a connection receives over its life |
| `HubNetwork.dfy` | several hubs joined by a broker |
| `Pagination.dfy`, `Listings.dfy` | keyset pages over a changing table; history and feed |
| `PlaybackQueue.dfy` | playback queue and reservations |
| `CacheStore.dfy` | the single-flight cache: many requests, and the code of one |
| `RateLimit.dfy` | the fixed-window limiter |
| `AudioUpload.dfy` | concurrent replacement of a song's audio, and the code of one upload |
| `WavAudio.dfy`, `Framing.dfy`, `Mp3Audio.dfy` | the validators and the grammars they decide |
| `Wrappers.dfy`, `Octets.dfy` | optional values; bytes |

Code that updates an object in place is a class with methods proved against functions on its
contents. Protocols between processes are state machines: a step is one Lua script, one SQL
statement or transaction, or one move of a goroutine; a run is any list of enabled steps, so every
interleaving is covered. Fields called history in the comments record what happened and influence
nothing.

## Assumptions

- One non-decreasing clock per protocol. The queue uses Redis's own; sessions, playback
  reservations and the cache use the application's, and instances are assumed to agree.
- UUIDs, bcrypt hashes, issued tokens and upload keys never repeat; SHA-256 is injective; `cjson.decode` undoes
  `cjson.encode`.
- Redis keeps its data and runs a script without interleaving; PostgreSQL runs a statement or a
  row-locked transaction as one step. `QueueCuts` drops the first assumption as far as a script
  that stops half way is concerned.
- A request that a worker sends may arrive late, never, or more than once. The broker may lose and
  delay messages, and hands each one to each instance at most once.

## Where the code does less than one might expect

- **Slow reserve replies.** A lease of whole milliseconds survives as long as renewals succeed if
  the reserve reply takes at most `lease - 2 * (lease / 3) - 1 ms`. Redis compares whole
  milliseconds, and that costs the last one: "less than a third of the lease" does not suffice.
  `ReplyBoundIsExact` is the equivalence, `ThirdOfLeaseIsTooSlow` the failing case.
- **Equal records.** The delayed set is keyed by the record's bytes. Putting a job back loses it if
  and only if the same record is delayed already (`RetryLosesIffCollapse`); fresh job ids exclude
  that (`NoCollapse`), which is why conservation is proved from the uniqueness of jobs.
- **"TAG" inside the last MP3 frames.** `docs/audio-upload.md` describes an optional ID3v2 tag, at
  least two whole frames and an optional ID3v1 tag. The code strips the last 128 bytes whenever they
  begin with "TAG", so of the files so described it refuses exactly those that are whole frames to
  the end and have "TAG" 128 bytes before it (`TagInFrameDataIsRefused`, with the concrete file in
  `RefusedExample`).
- **The limiter's interval bound** is `2 * Max - 1`, one better than twice the maximum, and it is
  reached (`IntervalBound`, `BoundIsReached`). It needs a window of at least one millisecond:
  `PEXPIRE key 0` deletes the counter at once, so a shorter window limits nothing
  (`LimitsIffWindow` is the equivalence).
- **Expirations that are not positive.** `CACHE_TTL` and `RESET_TOKEN_TTL` are taken from the
  environment unchecked (`cmd/api/main.go:70-71`), and the Redis client sends only a positive
  expiration with `SET`. So a reset token with no time is good until it is used
  (`StoreResetToken`), and a cached value is served for at most `ttl + stale` if and only if that
  sum is positive (`BoundedIffExpiring`; `ServedAtAnyAge` is the failing run). Loads of an untouched
  key are more than `ttl` apart if and only if Redis does not drop a value that is still fresh,
  which holds whenever `ttl` and `stale` are equal, as in every caller (`SpacedIffKeepsFresh`).
- **Stopped reserve scripts.** A reserve script that stops after its first command leaves the record
  in the ready list, so the job is not lost, and an entry in the processing hash without a lease
  (`ReserveStops`). No script ever looks at that entry again (`UnleasedForever`).
- **Orphaned leases.** A settlement that stops half way can leave a lease without a delivery. The
  next recovery removes it only if it is among the hundred that run out first
  (`OrphanLeaseCleaned`); it is gone after as many recoveries as hundreds of leases run out no later
  than it (`OrphansAreCleaned`).

## Model

| member | source | states |
|---|---|---|
| `JobRecords.Delivered` | internal/queue/scripts.go:29-30 | reserving a readable record wraps the same job bytes and counts one more delivery |
| `JobRecords.WithError` | internal/queue/scripts.go:54-57 | noting an error keeps the job bytes and the count |
| `JobRecords.RewritesKeepFields` | internal/queue/scripts.go:29-57 | rewriting an envelope touches its count and its error and nothing else: a delivery keeps the error, a failure keeps the count and notes its message, a replay clears both |
| `JobRecords.Replayed` | scripts/replay-dead-job.lua:1-18 | a replayed record carries the same job bytes, is reservable, and its count restarts at zero |
| `JobRecords.ValidRecordForms` | internal/queue/scripts.go:13-23 | which strings are records, for the two forms a record has; a bare job without a count, or with false for one, counts from zero |
| `JobRecords.BackoffSchedule` | internal/queue/queue.go:16-22 | deliveries 1 to 4 are followed by exactly 2, 4, 8 and 16 seconds; the cap of one minute never decides |
| `JobRecords.BackoffInNumbers` | internal/queue/scripts.go:61 | the wait after any delivery in milliseconds: 2, 4, 8, 16 and 32 seconds, then a minute |
| `JobRecords.FreshIdFreshJob` | internal/queue/queue.go:73-84 | a job with an unused id differs from every job text seen before |
| `JobQueue.RangeByScore` | internal/queue/scripts.go:38 | up to a hundred due members, each once, lowest score first, all of them if fewer are due |
| `JobQueue.RangeCount` | internal/queue/scripts.go:38 | an answer has as many members as are due, or the limit: the first to fall due, in that order |
| `JobQueue.RedisQueue.EnqueueJob` | internal/queue/queue.go:73-84 | the record joins the end of the ready list and nothing else changes |
| `JobQueue.RedisQueue.ReserveScript` | internal/queue/scripts.go:11-35 | whole new state and reply: empty, invalid record to the dead-letter list, or the head leased under the reservation |
| `JobQueue.RedisQueue.PromoteScript` | internal/queue/scripts.go:37-44 | exactly the due records of one range query move to the ready list in its order |
| `JobQueue.RedisQueue.RecoverEntry` | internal/queue/recovery.go:18-32 | one expired lease: its delivery is delayed or dead-lettered, or only the lease is cleaned |
| `JobQueue.RedisQueue.RecoverScript` | internal/queue/recovery.go:16-35 | the loop over one range query recovers each of its reservations in order |
| `JobQueue.RedisQueue.FinishScript` | internal/queue/scripts.go:46-68 | ack, renew, retry and dead act only for an owned unexpired reservation, and the answer says whether they did |
| `JobQueue.RedisQueue.ReplayScript` | scripts/replay-dead-job.lua:1-19 | the oldest dead record moves to ready with its count reset; an empty list or an invalid job changes nothing |
| `JobQueue.RedisQueue.Poll` | internal/queue/queue.go:94-130 | one turn of Reserve: recover, promote, reserve, each at its own clock reading |
| `QueueLaws.EnqueueCopies` | internal/queue/queue.go:83 | enqueueing adds one copy of its job and none of another |
| `QueueLaws.ReserveCopies` | internal/queue/scripts.go:11-35 | reserving keeps the number of copies of every job |
| `QueueLaws.PromoteCopies` | internal/queue/scripts.go:37-44 | promotion keeps the number of copies of every job |
| `QueueLaws.RecoverCopies` | internal/queue/recovery.go:17-33 | recovery keeps it too when no job has two copies |
| `QueueLaws.FinishCopies` | internal/queue/scripts.go:46-68 | only an accepted ack removes a copy, one of its own job |
| `QueueLaws.ReplayCopies` | scripts/replay-dead-job.lua:1-19 | replay keeps the number of copies of every job |
| `QueueLaws.NoCollapse` | internal/queue/scripts.go:62 | with unique jobs the record put back is never already in the delayed set |
| `QueueLaws.RetryLosesIffCollapse` | internal/queue/scripts.go:61-66 | a retry loses its job if and only if the record it writes is already delayed |
| `QueueLaws.CountedIsHeld` | internal/queue/queue.go:64-71 | a counted job has a place in ready, processing, delayed or dead |
| `QueueLaws.HeldOnce` | internal/queue/queue.go:64-71 | a job counted once has at most one place |
| `QueueBatches.RecoverEnds` | internal/queue/recovery.go:17-33 | recovery ends exactly the reservations it was given |
| `QueueBatches.PromoteEnds` | internal/queue/scripts.go:39-42 | promotion takes exactly the records it was given out of the delayed set |
| `QueueRuns.StepKeepsInv` | internal/queue/scripts.go:11-68 | every script keeps processing and leases on the same reservations and every stored delivery readable |
| `QueueRuns.FinishKeepsOthers` | internal/queue/scripts.go:49-66 | a finish script changes no other reservation's delivery or lease, and says what becomes of its own |
| `QueueRuns.SettleXorRecover` | internal/queue/scripts.go:49 | at any instant a reservation can be settled (deadline after now) or recovered (deadline not after now), never both |
| `QueueRuns.EndsMeans` | internal/queue/scripts.go:46-68 | the steps counted as ending a reservation are those before which it is held and after which it is not |
| `QueueRuns.StaleForever` | internal/queue/scripts.go:49 | once stale, an owner's ack, renew, retry and dead-letter change nothing for ever |
| `QueueRuns.EndedAtMostOnce` | internal/queue/scripts.go:65-66 | over any run a reservation is settled or recovered at most once in all |
| `QueueRuns.DeliversMeans` | internal/queue/scripts.go:31-33 | the steps counted as deliveries are those after which a new reservation holds the job |
| `QueueRuns.DeliveriesWithinBudget` | internal/queue/recovery.go:24-29 | over any run without re-injection, deliveries of a job stay within the budget its records carry |
| `QueueRuns.DeliveryBound` | internal/queue/queue.go:16-22 | a ready record with attempt a is delivered at most max(1, 5 - a) times unless replayed or enqueued again |
| `QueueRuns.StepLowersRank` | internal/queue/scripts.go:58-63 | each step that is not enqueue, replay or renew leaves the queue as it is or lowers the rank |
| `QueueRuns.QueueRunsDry` | internal/queue/scripts.go:58-63 | without those steps the number of queue changes is bounded, whatever workers do |
| `QueueRuns.CountersCount` | internal/queue/scripts.go:11-68 | what the counters of endings, deliveries and queue changes count, step by step |
| `QueueRuns.StepIsFifo` | internal/queue/scripts.go:33-41 | a step appends to the ready list at its end and takes from its head |
| `QueueRuns.ReadyIsFifo` | internal/queue/scripts.go:33-41 | over every run records leave the ready list in the order in which they entered it |
| `QueueRuns.RecoverBuries` | internal/queue/recovery.go:24-25 | recovery appends to the dead-letter list exactly the exhausted deliveries, in order |
| `QueueRuns.DeadIsFifo` | scripts/replay-dead-job.lua:1-18 | over every run replays take the dead-letter list oldest first |
| `QueueCuts.ReserveWhole` | internal/queue/scripts.go:24-33 | the commands of the reserve script, run to the end, are the script |
| `QueueCuts.FinishWhole` | internal/queue/scripts.go:50-66 | the same for the finish script |
| `QueueCuts.PromoteWhole` | internal/queue/scripts.go:39-42 | the same for promotion |
| `QueueCuts.RecoverWhole` | internal/queue/recovery.go:17-33 | the same for recovery |
| `QueueCuts.ReplayWhole` | scripts/replay-dead-job.lua:17-18 | the same for replay |
| `QueueCuts.ReserveCut` | internal/queue/scripts.go:31-33 | after any prefix of the commands a job that was safe is still in a container (and a held delivery still has a lease) |
| `QueueCuts.FinishCut` | internal/queue/scripts.go:54-66 | the same for retry, dead and renew, and for every other job during an ack |
| `QueueCuts.PromoteCut` | internal/queue/scripts.go:39-42 | the same for promotion |
| `QueueCuts.RecoverCut` | internal/queue/recovery.go:20-32 | the same for recovery |
| `QueueCuts.ReplayCut` | scripts/replay-dead-job.lua:17-18 | the same for replay |
| `QueueCuts.FinishLeased` | internal/queue/scripts.go:66-67 | a settlement stopped anywhere leaves no delivery without a lease |
| `QueueCuts.RecoverLeased` | internal/queue/recovery.go:30-32 | neither does a recovery |
| `QueueCuts.ReserveStops` | internal/queue/scripts.go:31-33 | what a reserve script leaves that stops after any of its commands: the record is in the ready list until the last, and after the first it is also held, without a lease |
| `QueueCuts.OrphanLeaseCleaned` | internal/queue/recovery.go:18-32 | a lease left without a delivery is honoured for nobody, and a recovery removes it if and only if it reaches it; one of fewer than a hundred leases reaches every expired one |
| `QueueCuts.WholeScript` | internal/queue/scripts.go:11-68 | a script that does not stop is the script |
| `QueueCuts.WholeCut` | internal/queue/scripts.go:11-68 | a script that does not stop is a step of the runs of whole scripts |
| `QueueCuts.OnlyAckAcknowledges` | internal/queue/scripts.go:66 | a job becomes acknowledged only when its owner's ack deletes its delivery |
| `QueueCuts.CutKeepsInv` | internal/queue/scripts.go:11-68 | any script stopped anywhere keeps deliveries readable and every enqueued, unacknowledged job safe |
| `QueueCuts.CutRunsLoseNothing` | internal/queue/scripts.go:11-68 | over every run in which any script may stop after any prefix, an enqueued, unacknowledged job is in a list, delayed, or processed under a lease |
| `QueueCuts.EnqueuedIsAckedOrSafe` | internal/queue/queue.go:73-84 | from the empty queue on, whatever was enqueued at any point of such a run is acknowledged or still there at its end |
| `QueueCuts.SystemIsSafe` | internal/queue/scripts.go:11-68 | scripts may begin to stop half way in any state of the running system |
| `QueueCuts.PassedOver` | internal/queue/recovery.go:17 | a recovery that does not reach an expired lease took a full hundred that run out no later |
| `QueueCuts.OrphansAreCleaned` | internal/queue/recovery.go:17-33 | over every such run an expired orphan is forgotten for good after as many whole recoveries as hundreds of leases run out no later than it |
| `QueueCuts.UnleasedForever` | internal/queue/scripts.go:31-33 | over every such run a delivery without a lease, as a reserve script leaves it that stops after its first command, is never settled, recovered or removed |
| `Worker.ReactKeepsInv` | internal/worker/worker.go:116-197 | every move of handler, heartbeat, reply and cancellation keeps the worker invariant |
| `Worker.SettlementsMembers` | internal/worker/worker.go:158-164 | the settlements of a list of calls are exactly its calls other than renewals |
| `Worker.ProcessContract` | internal/worker/worker.go:138-197 | in every interleaving: at most one settlement, none after a failed renewal or a noticed cancellation, no call after it, Ack only after a nil handler error, every other end has settled, and the handler is told to stop exactly when the worker is or when a renewal failed |
| `Worker.SettlementIsExact` | internal/worker/worker.go:121-170 | over every list of events the settlement is Ack if the handler returned nil, Retry with the handler's own error if it returned one, and Dead with the cause if there was no handler |
| `Worker.CancelledNeverSettles` | internal/worker/worker.go:150-152 | a worker told to stop before the context is checked never settles the job |
| `Worker.CancelIsSeen` | internal/worker/worker.go:138-149 | a cancellation reaches the handler and the heartbeat, and a heartbeat that ended so ends the process without a settlement |
| `Worker.HeartbeatRenews` | internal/worker/worker.go:181-196 | while the handler runs the next tick sends exactly one renewal, and a refused one stops the handler |
| `Worker.NeverStuck` | internal/worker/worker.go:116-171 | until it has finished some move is possible, without outside cancellation, that brings it nearer to its end |
| `JobSystem.QueueStepCopies` | internal/queue/scripts.go:11-68 | a step of the running system adds a copy when it enqueues and takes one when it acknowledges, and otherwise keeps all counts |
| `JobSystem.ActionKeepsInv` | internal/worker/worker.go:116-171 | every action of queue, workers, network and crashes keeps the system invariant |
| `JobSystem.OneSettlementCall` | internal/worker/worker.go:158-164 | two settlement calls of one delivery are the same call |
| `JobSystem.WhereIsTheJob` | internal/queue/scripts.go:11-68 | an enqueued, unacknowledged job has exactly one place; any other text has none |
| `JobSystem.JobsAreConserved` | internal/queue/scripts.go:11-68 | over every run with any number of workers and crashes each enqueued job is in exactly one container or acknowledged, its bytes unchanged, and acknowledged only under a reservation whose handler returned nil |
| `JobSystem.OneReservationPerJob` | internal/queue/scripts.go:31-33 | a job never has two live reservations |
| `JobSystem.AckIsFinal` | internal/worker/worker.go:164-168 | an acknowledged job stays acknowledged under that reservation and never returns to the queue |
| `JobSystem.WaitsUntilDue` | internal/queue/scripts.go:38-42 | over every run a delayed job stays delayed with its time, and nowhere else, until it is due |
| `JobSystem.RecoveryDelays` | internal/queue/recovery.go:26-31 | an expired delivery with attempts left is delayed by exactly its backoff |
| `JobSystem.BackoffIsKept` | internal/queue/scripts.go:58-63 | after delivery a fails or is abandoned, nobody gets the job before Backoff(a) milliseconds have passed |
| `JobSystem.OutcomeDecides` | internal/worker/worker.go:154-168 | when a settlement runs in time: a nil error removes the job, an error delays it by 2, 4, 8 or 16 seconds with that error on it, or buries it after the fifth delivery, and only a job without a handler is buried at once |
| `JobSystem.AbandonedDecides` | internal/queue/recovery.go:19-31 | a delivery whose lease ran out is treated like one that failed, with "processing lease expired" as its error |
| `JobSystem.WorkerRuns` | internal/worker/worker.go:116-171 | a worker that has the time can do whatever its process may do, and all its calls are sent |
| `JobSystem.HandledAlone` | internal/worker/worker.go:102-171 | from any reachable state the job at the head of the ready list can be handed out, handled and settled, and everything else in the queue is as it was |
| `LeaseTiming.BeginsAtTick` | internal/worker/worker.go:173-196 | with requests bounded by the interval a renewal always starts at its own tick |
| `LeaseTiming.RenewalGap` | internal/worker/worker.go:178-189 | successive renewals reach Redis at most two thirds of the lease apart |
| `LeaseTiming.LeaseNeverLapses` | internal/worker/worker.go:173-196 | while renewals succeed each arrives before the deadline, given a reply within the bound |
| `LeaseTiming.ReplyBoundIsExact` | internal/worker/worker.go:178-189 | every schedule is in time if and only if reply delay plus two intervals plus one millisecond fits into the lease |
| `LeaseTiming.ThirdOfLeaseIsTooSlow` | internal/queue/queue.go:54-62 | a reply just under a third of the lease can lose it, for every lease |
| `LeaseTiming.StepKeeps` | internal/queue/scripts.go:46-68 | whatever script anybody runs, the worker keeps the record and the deadline of its last renewal while the schedule is kept |
| `LeaseTiming.NextRenewal` | internal/worker/worker.go:183-189 | the next renewal can always be made, is accepted and starts the next lease |
| `LeaseTiming.LeaseIsKept` | internal/worker/worker.go:173-196 | from the reserve script on, over every run of all clients that follows the schedule, the reservation is owned and unexpired, holds the record handed out, and has the deadline of its last renewal |
| `LeaseTiming.OwnerIsServed` | internal/queue/recovery.go:17 | at any moment of such a run the owner's settlement is accepted and no recovery by anybody takes the reservation |
| `Sessions.SessionStore.Active` | internal/repository/session_repository.go:38-47 | returns an unexpired row; forgets an expired one |
| `Sessions.SessionStore.Retain` | internal/repository/session_repository.go:48-57 | keeps exactly the unexpired rows and sets the time to live to the largest expiry, or drops the key |
| `Sessions.SessionStore.CreateScript` | internal/repository/session_repository.go:60-65 | stores the row if and only if the marker is the expected one |
| `Sessions.SessionStore.GetScript` | internal/repository/session_repository.go:66-71 | an unexpired row or nothing; prunes |
| `Sessions.SessionStore.RotateScript` | internal/repository/session_repository.go:72-81 | compare-and-set on refresh and credential digest of an unexpired row; a time to live that is not positive is refused first |
| `Sessions.SessionStore.ListScript` | internal/repository/session_repository.go:82-89 | all unexpired rows, to an unexpired caller only |
| `Sessions.SessionStore.RevokeScript` | internal/repository/session_repository.go:90-97 | removes the target on behalf of an unexpired caller or of the system, and says whether it was alive |
| `Sessions.SessionStore.RevokeAllScript` | internal/repository/session_repository.go:98-103 | drops the hash and changes the marker, on behalf of an unexpired caller or of the system |
| `Sessions.ScriptRefines` | internal/repository/session_repository.go:36-103 | one script answers as the ideal table with per-session expiry does and leaves the same sessions alive at every later time |
| `Sessions.ExpiryRefines` | internal/repository/session_repository.go:55-56 | Redis dropping the key drops no session that is alive |
| `Sessions.HashRefinesIdeal` | internal/repository/session_repository.go:36-103 | over every history of scripts, key expiry and time all answers are those of the ideal table |
| `Sessions.FreshKeysRefine` | internal/repository/session_repository.go:36-103 | the same from a user without sessions |
| `Sessions.CreateMeans` | internal/repository/session_repository.go:60-65 | a session is alive after its creation until the expiry in its row; with another marker nothing changes; no other session changes |
| `Sessions.RotateMeans` | internal/repository/session_repository.go:72-81 | accepted exactly for the current digest and credential of a living session; then the row has the new digest, time of use and expiry, and keeps its device, creation time and credential |
| `Sessions.ReadsMean` | internal/repository/session_repository.go:66-89 | a lookup answers with the living row, a listing with exactly the living rows to a living caller, and neither changes a session |
| `Sessions.RevokeMeans` | internal/repository/session_repository.go:90-97 | the target is gone, the answer says whether it was alive, and no other session changes; a caller that is gone is refused |
| `Sessions.RevokeAllMeans` | internal/repository/session_repository.go:98-103 | no session is left and the marker is the new one; a caller that is gone is refused |
| `Sessions.LastsUntilExpiry` | internal/repository/session_repository.go:36-103 | over every history that does not rotate or revoke it a session is alive at the end if and only if its own expiry has not come |
| `Sessions.RotationLasts` | internal/repository/session_repository.go:74-80 | over every such history a rotation at t keeps its session alive at exactly the times before t + ttl |
| `AuthService.ResetTokens.StoreResetToken` | internal/repository/token_repository.go:25-32 | the token can be redeemed exactly until its time is over, for ever if the time it was given is not positive, and no other token's fate changes |
| `AuthService.ResetTokens.ConsumeResetToken` | internal/repository/token_repository.go:34-48 | accepted exactly while redeemable, and never redeemable again |
| `AuthService.Account.Login` | internal/service/auth_service.go:140-179 | undisturbed, it succeeds if and only if the account exists and the password matches, and then stores exactly its session |
| `AuthService.Account.Refresh` | internal/service/auth_service.go:182-228 | undisturbed, it succeeds if and only if the session is alive with this refresh digest and the current credential; then its row has the new digest, time of use and expiry and is otherwise as it was; if not, no living session changes |
| `AuthService.Account.ForgotPassword` | internal/service/auth_service.go:251-273 | a token good for exactly its time, or for ever if that is not positive, if the account exists; nothing otherwise |
| `AuthService.Account.ResetPassword` | internal/service/auth_service.go:294-328 | uses up the token, changes the password, drops every session and the marker; a refusal changes neither account nor sessions |
| `AuthProtocol.RowsOrigin` | internal/repository/session_repository.go:60-81 | a row of the hash was there before, was just created under the current marker, or was just rotated from a matching row |
| `AuthProtocol.StepKeepsFence` | internal/service/auth_service.go:140-179 | every step of every request keeps stored and pending sessions at least as new as the newest completed reset |
| `AuthProtocol.StepKeepsChains` | internal/service/auth_service.go:182-228 | every step keeps each stored digest the last of its session's chain and exchanged tokens distinct |
| `AuthProtocol.FenceHolds` | internal/service/auth_service.go:294-328 | the fence never moves back |
| `AuthProtocol.ResetFencesSessions` | internal/service/auth_service.go:294-328 | once a reset's revocation has run, in every interleaving of logins, refreshes and other resets no stored session carries an older credential, ever again |
| `AuthProtocol.OldMarkerStaysOld` | internal/repository/session_repository.go:98-103 | a marker that was replaced never becomes current again |
| `AuthProtocol.LateLoginIsRefused` | internal/service/auth_service.go:351-357 | a login holding a replaced marker cannot store a session, however late it tries |
| `AuthProtocol.RevocationRefusesLogins` | internal/service/auth_service.go:140-179 | a login under way when a reset's revocation runs never succeeds if it holds a marker already or read an older password |
| `AuthProtocol.RotationIsALinearChain` | internal/service/auth_service.go:182-228 | each refresh token is accepted at most once, the stored digest is that of the last token issued, and the credential never changes |
| `AuthProtocol.GoneForever` | internal/repository/session_repository.go:72-81 | a session that is no longer alive never comes back |
| `AuthProtocol.RefreshAfterPasswordChange` | internal/service/auth_service.go:205-226 | a refresh of a session older than the password it reads is refused, whether or not the revocation ever ran |
| `AuthProtocol.ResetTokenOnce` | internal/repository/token_repository.go:34-48 | a reset token is accepted at most once |
| `AuthProtocol.TicketIsSent` | internal/service/auth_service.go:251-273 | a reset token that was sent can be used until it expires |
| `AuthProtocol.OthersMayRun` | internal/repository/session_repository.go:66-103 | lookups, listings and revocations by the user may run at any moment |
| `AuthProtocol.LoginAlone` | internal/service/auth_service.go:140-179 | the undisturbed login is a run of the protocol and stores its session |
| `AuthProtocol.RefreshAlone` | internal/service/auth_service.go:182-228 | the undisturbed refresh is a run, is accepted and extends the chain |
| `AuthProtocol.ResetAlone` | internal/service/auth_service.go:294-328 | the undisturbed reset is a run, leaves no session and moves the fence to the new password |
| `Hub.GroupRemove` | internal/websocket/hub.go:220-227 | deleting a connection from its group, and the group when it becomes empty, is the grouping of the remaining connections |
| `Hub.GroupAdd` | internal/websocket/hub.go:112-116 | the same for adding one |
| `Hub.TargetsByIndex` | internal/websocket/hub.go:186-200 | what dispatch finds through its two indexes is exactly whom the request addresses |
| `Hub.OfferOneMore` | internal/websocket/hub.go:204-211 | offering a message client by client, in any order, is offering it to the set |
| `Hub.HubLoop.Register` | internal/websocket/hub.go:111-116 | the connection joins both indexes with an open empty channel |
| `Hub.HubLoop.CloseChannel` | internal/websocket/hub.go:229 | closes a channel that is open; closing twice is excluded |
| `Hub.HubLoop.RemoveClient` | internal/websocket/hub.go:215-230 | leaves both indexes, drops an empty group and closes the channel; nothing for a stranger |
| `Hub.HubLoop.Unregister` | internal/websocket/hub.go:119-123 | the same on a disconnect |
| `Hub.HubLoop.SendTo` | internal/websocket/hub.go:204-211 | the message joins the channel, or a full channel's client is dropped |
| `Hub.HubLoop.OfferAll` | internal/websocket/hub.go:186-200 | the loop over a group or over all but the excluded connection |
| `Hub.HubLoop.Dispatch` | internal/websocket/hub.go:186-200 | exactly the addressees are offered the message, slow ones are dropped, all else is unchanged |
| `Hub.HubLoop.Stop` | internal/websocket/hub.go:128-135 | every open channel is closed and both indexes are emptied |
| `HubRuns.EveryAccount` | internal/websocket/hub.go:103-137 | after any events the hub's state agrees with what the events say about a connection |
| `HubRuns.GapFreeDelivery` | internal/websocket/hub.go:186-211 | what the hub put into a channel is an ordered gap-free prefix of the messages addressed to it while online, all of them if and only if it was not dropped |
| `HubRuns.ReadInOrder` | internal/websocket/hub.go:379-405 | what the write pump took out of a channel and what still waits in it are what was put in, in order; a new channel is empty, closing loses none that wait, and without direct sends they are what the hub delivered |
| `HubRuns.DroppedWhenFull` | internal/websocket/hub.go:204-211 | a client is dropped only as addressee of a message that finds sixteen unread ones |
| `HubRuns.ClosedExactlyOnce` | internal/websocket/hub.go:213-230 | a channel is closed exactly once, when its connection leaves, and never reopened |
| `HubNetwork.NewRequest` | internal/websocket/hub.go:163-183 | a message new to an instance joins its line without a duplicate |
| `HubNetwork.HeadDispatched` | internal/websocket/hub.go:125-126 | the dispatched message was never dispatched here before |
| `HubNetwork.DispatchReaches` | internal/websocket/hub.go:186-200 | what a dispatch gives a connection keeps its received messages right |
| `HubNetwork.ActionKeepsInv` | internal/websocket/hub.go:143-303 | publishing, receiving, dispatching, connecting and local moves keep the invariant of all instances |
| `HubNetwork.Idle` | internal/websocket/hub.go:81-91 | instances with nobody connected and nothing published satisfy the invariant every run starts from |
| `HubNetwork.DispatchInOrder` | internal/websocket/hub.go:186-211 | one more dispatch continues what a connected client got in order, or drops it |
| `HubNetwork.ActionKeepsOrder` | internal/websocket/hub.go:143-303 | every action keeps what each connection got an ordered, gap-free prefix of what its instance dispatched for it |
| `HubNetwork.InOrderEverywhere` | internal/websocket/hub.go:143-303 | over every run of all instances what a connection got is an ordered prefix, without a gap, of the events meant for it that its instance dispatched since it connected, and all of them while it is connected |
| `HubNetwork.ActionKeepsHandled` | internal/websocket/hub.go:163-183 | every action keeps each message that reached an instance waiting in its line or dispatched |
| `HubNetwork.NothingIsDropped` | internal/websocket/hub.go:163-183 | over every run a message that the broker handed over from elsewhere, or that its own hub took, waits in the line or was dispatched |
| `HubNetwork.ArrivalsAreHandled` | internal/websocket/hub.go:163-183 | the same for every publication and hand-over of the run |
| `HubNetwork.EverybodyIsReached` | internal/websocket/hub.go:163-211 | once the line is empty every connection that its hub still has got each such message that is for it, unless it was dispatched before the connection was made |
| `HubNetwork.AtMostOnceEverywhere` | internal/websocket/hub.go:143-303 | across all instances a connection receives each event at most once, never one that excludes it, and a targeted one only if its user is the target |
| `Pagination.PageIsSound` | internal/repository/activity_repository.go:57-65 | a page holds the newest rows below the cursor, at most the limit, and every other row below it lies below the next cursor |
| `Pagination.NoRowTwice` | internal/service/player_service.go:161-188 | whatever is inserted or deleted between fetches, what is shown is strictly newest first |
| `Pagination.ShownLaterFirst` | internal/repository/player_repository.go:183-190 | in plain numbers: whatever changes between the fetches, what is shown is ordered by time and then by id, both descending |
| `Pagination.NoRowMissed` | internal/service/player_service.go:161-188 | a row present and hydratable at every fetch is shown once the traversal ended |
| `Pagination.ShownExactlyOnce` | internal/service/feed_service.go:89-116 | together: it is shown at exactly one place |
| `Pagination.PagesNeededIsCeiling` | internal/service/feed_service.go:107-116 | the page count is max(1, ceil(n / limit)) |
| `Pagination.StaticTraversal` | internal/service/feed_service.go:107-116 | on a fixed table the traversal shows the kept rows in order and ends after exactly that many fetches |
| `Listings.FetchPage` | internal/service/player_service.go:161-188 | one row more than the limit decides the next cursor, from a cursor or from an offset |
| `Listings.OffsetPage` | internal/service/player_service.go:161-188 | the page of an offset holds the rows from there up to the limit, and its cursor is the last of them if there are more |
| `Listings.LookUp` | internal/service/player_service.go:207-210 | the bulk query as a map: the wanted ids that exist |
| `Listings.HydrateHistory` | internal/service/player_service.go:197-220 | exactly the rows whose song exists, in order |
| `Listings.GetHistory` | internal/service/player_service.go:158-223 | entries and next cursor of a history page; skipped rows do not move the cursor |
| `Listings.CollectIds` | internal/service/feed_service.go:122-143 | every id the rows mention, each once |
| `Listings.LookedUp` | internal/service/feed_service.go:160-214 | hydrating from the looked-up ids decides and builds the same as from the whole tables |
| `Listings.HydrateFeed` | internal/service/feed_service.go:122-214 | exactly the activities whose actor and object exist, in order, by kind |
| `Listings.GetFeed` | internal/service/feed_service.go:86-217 | entries and next cursor of a feed page |
| `Listings.EntriesOfShown` | internal/service/player_service.go:158-223 | entry by entry, what successive calls answer, each with the cursor of the one before, is told of the rows that the traversal shows |
| `Listings.ToldExactlyOnce` | internal/service/feed_service.go:86-217 | while rows come and go between the calls, a row that stays and can be hydrated has exactly one entry in what they answer together |
| `Listings.PlayListedOnce` | internal/service/player_service.go:158-223 | for the history: a play that stays is answered once, with its own time and song |
| `Listings.ActivityListedOnce` | internal/service/feed_service.go:160-214 | for the feed: an activity that stays, as do its actor and what it is about, is answered once, with its actor, its time, and its song or its playlist |
| `Listings.EntriesAreActivities` | internal/service/feed_service.go:160-214 | every entry of the feed belongs to the activity at its place in the traversal |
| `PlaybackQueue.PlayerRepository.FirstCandidate` | internal/repository/playback_queue_repository.go:55-60 | the first free unlocked entry by position and id, or none |
| `PlaybackQueue.PlayerRepository.MaxPosition` | internal/repository/player_repository.go:73-79 | the largest position of a user, or zero |
| `PlaybackQueue.PlayerRepository.AppendToQueue` | internal/repository/player_repository.go:67-89 | a new entry one position after the user's last |
| `PlaybackQueue.PlayerRepository.ReserveQueueEntry` | internal/repository/playback_queue_repository.go:50-83 | grants the first candidate for a minute, or changes nothing because there is none |
| `PlaybackQueue.PlayerRepository.ConfirmQueueEntry` | internal/repository/playback_queue_repository.go:85-94 | deletes exactly the user's entries the token actively holds, and says whether there was one |
| `PlaybackQueue.PlayerRepository.ReleaseQueueEntry` | internal/repository/playback_queue_repository.go:96-99 | afterwards the token holds none of the user's entries, every row that it did not hold for this user is as it was, and no row is lost |
| `PlaybackQueue.PlayerRepository.RemoveQueueEntry` | internal/repository/playback_queue_repository.go:101-103 | removes the user's entry and nothing else |
| `PlaybackQueue.StepKeepsRows` | internal/repository/player_repository.go:67-89 | concurrent appends, reservations and deletes keep positions in append order and every token on one entry |
| `PlaybackQueue.StepKeepsConsumed` | internal/repository/playback_queue_repository.go:85-94 | no entry and no token is consumed twice |
| `PlaybackQueue.DeadStaysDead` | internal/repository/playback_queue_repository.go:50-99 | a token that expired or lost its entry never becomes active again |
| `PlaybackQueue.QueueIsOrderly` | internal/repository/player_repository.go:67-89 | over every run positions are unique and in append order, tokens are on one entry, consumption happens once |
| `PlaybackQueue.EntryStays` | internal/repository/playback_queue_repository.go:85-103 | over every run an entry is in the table, with its song and place, exactly until a confirmation or removal takes it out, and its number is not used again |
| `PlaybackQueue.AppendContinues` | internal/repository/player_repository.go:70-88 | an append that has read the largest position can insert one behind it |
| `PlaybackQueue.AppendedLast` | internal/repository/player_repository.go:80-88 | the appended entry is behind all of the user's, with its song, and changes no other |
| `PlaybackQueue.SelectedIsDeleted` | internal/repository/player_repository.go:118-137 | an entry selected by its song can be deleted, and is gone then |
| `PlaybackQueue.LeaseLastsAMinute` | internal/repository/playback_queue_repository.go:71 | over every run that neither releases it nor takes out its entry a reservation can be confirmed for exactly a minute |
| `PlaybackQueue.GrantSupersedes` | internal/repository/playback_queue_repository.go:55-74 | granting an entry activates the new token and kills the one before for ever: never two active reservations |
| `PlaybackQueue.ReleaseKills` | internal/repository/playback_queue_repository.go:96-99 | a released token is dead for ever |
| `PlaybackQueue.ConfirmConsumesOne` | internal/repository/playback_queue_repository.go:85-94 | an accepted confirmation deletes exactly one entry, which never returns, and kills its token for ever |
| `PlaybackQueue.DeadTokenIsHarmless` | internal/repository/playback_queue_repository.go:85-99 | an expired, released, superseded or used token confirms nothing and clears no newer lease |
| `PlaybackQueue.OthersUntouched` | internal/repository/playback_queue_repository.go:50-103 | over any run of one user's requests no other user's rows change |
| `CacheStore.StepKeepsFlight` | pkg/cache/store.go:134-136 | only the process named in the single-flight group runs loadAndStore, and only for it does anybody wait |
| `CacheStore.StepKeepsValues` | pkg/cache/store.go:147-182 | every value in flight or stored came from a loader run with its own fetch time |
| `CacheStore.StepKeepsSpacing` | pkg/cache/store.go:147-182 | where Redis keeps what is fresh, an untouched newest value stays readable through its fresh time, so no load starts in it |
| `CacheStore.OneLoaderAtATime` | pkg/cache/store.go:134-136 | at most one loader per key runs at any moment, requests and refreshes together |
| `CacheStore.LoadsAreSpaced` | pkg/cache/store.go:154-170 | a load after a stored value that nobody else touched starts more than ttl after that value was fetched, when Redis keeps what is fresh |
| `CacheStore.SpacedIffKeepsFresh` | pkg/cache/store.go:105-177 | loads are spaced in every run if and only if Redis keeps what is fresh; equal ttl and stale suffice |
| `CacheStore.EarlyLoad` | pkg/cache/store.go:154-177 | otherwise: the run that loads a fresh value again |
| `CacheStore.ValuesComeFromLoads` | pkg/cache/store.go:97-142 | every value returned to anybody was returned by a loader run |
| `CacheStore.FreshPathIsFresh` | pkg/cache/store.go:107-119 | an answer given without a load or a refresh is at most ttl old |
| `CacheStore.StepKeepsCell` | pkg/cache/store.go:172-181 | an untouched value stays in the key until ttl + stale have passed since it was stored |
| `CacheStore.FoundWhileItLasts` | pkg/cache/store.go:105-119 | over every run a GET finds the value stored last until ttl + stale have passed, for ever if that is not positive, and Redis may not drop it before |
| `CacheStore.AnsweredAtOnce` | pkg/cache/store.go:107-119 | a request in that time is answered at once with that value, whatever the loader does, with a background refresh exactly if the value is stale |
| `CacheStore.ResultIsShared` | pkg/cache/store.go:132-142 | whoever comes while a leader is at work waits and returns the leader's result, nobody else is affected, and a leader that finds a fresh value returns that |
| `CacheStore.ServedWithinLimit` | pkg/cache/store.go:105-119 | with a positive expiration a value is served from the cache for at most ttl + stale after it was stored |
| `CacheStore.ServedAtAnyAge` | pkg/cache/store.go:105-177 | without one there is, for every age, a run that serves a value of that age |
| `CacheStore.BoundedIffExpiring` | pkg/cache/store.go:105-177 | the bound holds in every run if and only if ttl + stale is positive |
| `CacheStore.KeyedStore.LoadAndStore` | pkg/cache/store.go:147-182 | a fresh entry is reused, otherwise the loader's value is stored with its fetch time, without an expiry if ttl + stale is not positive, or nothing changes because it failed |
| `CacheStore.KeyedStore.GetOrLoadJSON` | pkg/cache/store.go:97-142 | fresh and stale entries are returned as they are, stale ones with a refresh; junk is dropped; a miss loads; and the protocol has a run with the same answer, refresh and entry from every state in which nobody disturbs the request |
| `CacheStore.MissIsARun` | pkg/cache/store.go:121-181 | in the protocol an undisturbed miss loads, stores and answers with what it loaded |
| `CacheStore.HitIsARun` | pkg/cache/store.go:107-119 | in the protocol an undisturbed hit answers at once, with a refresh about to join exactly when the entry is stale |
| `RateLimit.Limiter.RateLimitScript` | internal/middleware/rate_limit.go:18-24 | counts one more in the living window or opens a new one, which a window below one millisecond closes at once; returns count and remaining time |
| `RateLimit.Limiter.Limit` | internal/middleware/rate_limit.go:46-82 | admits while the count is at most the maximum |
| `RateLimit.OneWindow` | internal/middleware/rate_limit.go:18-24 | one life of the counter admits no more than what is left of the maximum |
| `RateLimit.TwoWindows` | internal/middleware/rate_limit.go:18-24 | an interval of window length admits at most the rest of the current window and one more |
| `RateLimit.IntervalBound` | internal/middleware/rate_limit.go:61-81 | after any history an interval of window length, at least a millisecond, admits at most 2 * Max - 1 requests, none if Max is not positive |
| `RateLimit.NoWindowNoLimit` | internal/middleware/rate_limit.go:18-24 | without a millisecond in the window every request is admitted |
| `RateLimit.LimitsIffWindow` | internal/middleware/rate_limit.go:49-54 | the bound holds if and only if the window has a millisecond or nothing is to be admitted |
| `RateLimit.BoundIsReached` | internal/middleware/rate_limit.go:61-81 | that bound is reached for every window and maximum |
| `AudioUpload.StepKeepsInv` | internal/service/media_service.go:114-132 | every step of every upload, failure or crash keeps each uploaded or formerly named file current, owed by one process, or known to be left behind |
| `AudioUpload.KeyAlwaysNamesAFile` | internal/service/media_service.go:114-132 | whatever runs, fails or crashes, the song's audio key names a stored file |
| `AudioUpload.OneFileRemains` | internal/repository/song_repository.go:82-93 | if every upload finished, one of them well, and nothing was left behind, exactly one file remains of all uploaded and all ever named: the current one; the file from before is gone |
| `AudioUpload.MediaStore.ReplaceAudioKey` | internal/repository/song_repository.go:82-93 | swaps the key and returns the previous one, or leaves the row alone |
| `AudioUpload.MediaStore.UploadAudio` | internal/service/media_service.go:114-135 | the new file replaces the old one if and only if saving and swapping worked; a failure keeps the key and at most leaves the new file; the code is a run of the steps |
| `AudioUpload.AloneIsARun` | internal/service/media_service.go:114-132 | the steps of an undisturbed upload and the state they reach, whatever fails |
| `WavAudio.ToLe32RoundTrip` | internal/service/audio_validation.go:31 | reading a little-endian size and writing it gives back its four bytes |
| `WavAudio.FormatAligns` | internal/service/audio_validation.go:45-49 | an accepted format chunk has a block size from 1 to 4, so the later division is safe |
| `WavAudio.FormatInNumbers` | internal/service/audio_validation.go:38-51 | the accepted format byte by byte |
| `WavAudio.CanonicalIsPlayable` | internal/service/audio_validation.go:20-65 | every file with the usual 44 bytes in front of its samples is playable, for every accepted format |
| `WavAudio.PlayableMeans` | internal/service/audio_validation.go:37-58 | a playable file has one format chunk and later one data chunk, not empty and of whole blocks, and no second one of either |
| `WavAudio.PlayableFromStart` | internal/service/audio_validation.go:37-58 | the loop's order of checks is: one format chunk, then one data chunk of whole blocks, others anywhere |
| `WavAudio.ScanFindsChunks` | internal/service/audio_validation.go:27-63 | whatever the loop accepts is the encoding of a list of padded chunks |
| `WavAudio.ChunksAreScanned` | internal/service/audio_validation.go:27-63 | every encoding of a right list of chunks is accepted |
| `WavAudio.PlayableIsLong` | internal/service/audio_validation.go:21 | the check for 44 bytes refuses nothing that is playable |
| `WavAudio.ScanDecides` | internal/service/audio_validation.go:20-65 | header check and loop together decide the grammar |
| `WavAudio.CheckFormat` | internal/service/audio_validation.go:42-51 | the wrapping 16- and 32-bit products do not change what is accepted |
| `WavAudio.ScanChunk` | internal/service/audio_validation.go:28-62 | one round of the loop accepts exactly a whole padded chunk that may come next |
| `WavAudio.ValidPcm` | internal/service/audio_validation.go:20-65 | accepts a byte string if and only if it is a RIFF/WAVE file of exactly the declared size whose chunks are playable PCM |
| `Framing.CountPast` | internal/service/audio_validation.go:92-119 | whole frames in front are counted whatever follows |
| `Framing.CountSplits` | internal/service/audio_validation.go:92-119 | what is counted is that many whole frames |
| `Framing.SplitsOnce` | internal/service/audio_validation.go:92-119 | a stream splits into whole frames in one way only |
| `Mp3Audio.FrameSizeRange` | internal/service/audio_validation.go:101-113 | every computed frame size is from 24 to 1441, so every round consumes bytes |
| `Mp3Audio.RatesInNumbers` | internal/service/audio_validation.go:101-107 | the rate tables in closed form |
| `Mp3Audio.SizeInNumbers` | internal/service/audio_validation.go:101-113 | a frame is as long as the whole bytes of 1152 or 576 samples at its bitrate, and its padding byte |
| `Mp3Audio.HeaderAnnounces` | internal/service/audio_validation.go:93-113 | every header written from its fields announces the size that they mean, whatever follows |
| `Mp3Audio.OnlyHeadersAnnounce` | internal/service/audio_validation.go:93-100 | nothing else announces a size |
| `Mp3Audio.AnnouncedIsSound` | internal/service/audio_validation.go:93-113 | the size depends on the header alone and frames are not empty |
| `Mp3Audio.Id3IsFound` | internal/service/audio_validation.go:68-87 | the ID3v2 tag is cut off exactly where the file has it |
| `Mp3Audio.Id3IsCut` | internal/service/audio_validation.go:68-87 | what is cut off is a well-formed ID3v2 tag |
| `Mp3Audio.TagsInNumbers` | internal/service/audio_validation.go:69-90 | the two tags byte by byte |
| `Mp3Audio.DecidesPlainMp3` | internal/service/audio_validation.go:67-121 | the order of checks decides the grammar in which a trailing tag is never frame data |
| `Mp3Audio.TagInFrameDataIsRefused` | internal/service/audio_validation.go:88-90 | of the documented files exactly those are refused that are whole frames to the end and have "TAG" 128 bytes before it |
| `Mp3Audio.RefusedExample` | internal/service/audio_validation.go:88-90 | such a file |
| `Mp3Audio.AcceptedExample` | internal/service/audio_validation.go:101-121 | two frames of 417 bytes at 128 kbit/s and 44.1 kHz are a file |
| `Mp3Audio.OneFrameIsRefused` | internal/service/audio_validation.go:121 | one frame alone is not |
| `Mp3Audio.SkipId3` | internal/service/audio_validation.go:68-87 | the loop over the four size bytes, and the footer of version 4 |
| `Mp3Audio.ReadHeader` | internal/service/audio_validation.go:93-113 | the announced size from the header fields, or refusal |
| `Mp3Audio.SkipFrames` | internal/service/audio_validation.go:91-119 | the loop counts the whole frames, or refuses |
| `Mp3Audio.ValidMp3` | internal/service/audio_validation.go:67-121 | accepts if and only if the file is optional ID3v2, at least two whole frames, optional ID3v1, a trailing tag never taken for frame data |

## Left out

- JobRecords.Delivered: attempts are natural numbers; the scripts would accept a fractional or negative number that somebody wrote into Redis by hand.
- JobQueue.RedisQueue.Poll: one turn of the loop in Reserve; the 50 ms pause, the deadline and cancellation between turns are timing only.
- LeaseTiming.LeaseIsKept: a late copy of one of the worker's own renewals, which could only extend the lease, is not a step of the schedule.
- QueueCuts.FinishCut: says nothing about the job being acknowledged, which is meant to disappear.
- LeaseTiming.LeaseNeverLapses: leases of whole milliseconds, from the 3 ms that NewWithLease accepts; a goroutine that can run is assumed to run at once, and clock rates of worker and Redis to agree.
- AuthProtocol.ResetFencesSessions: deleting the account, and Redis or PostgreSQL answering an error after having done the work, appear only as a request that fails.
- Listings.FetchPage: the limit is at least 1, as the request parser makes it.
- AuthProtocol.RotationIsALinearChain: one account at a time; accounts share no key.
- HubNetwork.AtMostOnceEverywhere: a broker that hands one message to an instance twice is excluded; the code has nothing against it.
- HubRuns.ClosedExactlyOnce: `Client.Send` racing with the hub's close is not covered; a direct send is taken to happen only while the channel is open.
- PlaybackQueue.DeadTokenIsHarmless: reading the clock and running the statement are one step.
- PlaybackQueue.StepKeepsRows: RemoveFromQueue may pick any entry of the song here, the code picks the first; rows removed because their song or user was deleted are removals.
- CacheStore.LoadsAreSpaced: Redis answers every command; the paths that go on without Redis are left out.
- CacheStore.ServedWithinLimit: times are whole milliseconds. The client rounds a shorter positive expiration up to one and cuts others down; that an expiration of -1 ns keeps the old one is not modelled (the sum of two equal times is never that).
- AuthService.ResetTokens.StoreResetToken: times are whole milliseconds, as above.
- RateLimit.IntervalBound: requests admitted while Redis is unreachable are not counted.
- AudioUpload.KeyAlwaysNamesAFile: UploadAudio only. Updating a song saves the whole row including the audio key, and a database error is taken to mean that nothing was written.
- Worker.ProcessContract: two goroutines, a ticker and channels, so a state machine over values rather than a class; a lease that the job does not carry (the default of one minute) is not distinguished.
- Where many requests interleave (sessions, cache, uploads, playback, hubs) the requests are states of a machine over values; the classes hold the code of one request or script. Connections and processes are ids, not pointers.
- Users, songs, playlists and log lines carry only the fields the listings look at; totals and offset-only pages are left out.
- Cache coherence with the database under concurrent invalidation does not hold in general and is not claimed.
- HTTP routing, validation, responses, mail, metrics, tracing, migrations, search, charts, recommendations, follows and libraries: single queries or plumbing.
- Encodings and cryptography (JSON, base64 cursors, JWT, bcrypt, SHA-256) appear only through the assumptions above.
