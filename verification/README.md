# Verified model of the build service

The service takes a product description and a payment, builds a Flutter app from it, and hands back
an APK. This project models the parts of it that have to be right under crashes, retries and
concurrency, and proves what they promise:

| files | what they model |
|---|---|
| `LeasedFifo`, `QueueCommands`, `QueueSteps`, `QueueRaces`, `BuildQueues` | the build queue: an abstract leased FIFO, the Redis queue one Redis command at a time, what it does undisturbed and the races between commands, and both queue classes as implementations of the FIFO |
| `Jobs`, `BuildProtocol`, `BuildSafety`, `Finality`, `Fencing`, `BuildGaps`, `BuildWorkers` | durable execution: job records, any number of workers that reserve, heartbeat, stall, fail, crash and recover each other's jobs, status polls, when a record is final, what a lease that lapses too early costs, and the worker class as an implementation of that protocol |
| `Payments`, `Nonces`, `Accepting`, `AcceptService`, `Purchases`, `PurchaseGaps` | single-use payment: verification, the replay key, the settlement loop, both nonce stores, the accept path composed with durable execution, and the books of payments, jobs and money beside it |
| `Ownership`, `RepairLoop`, `QaNode`, `PackagingGate` | the build graph: ownership of diagnostics, the repair loop, the analysis node on a directory, and the gate between payment and packaging |
| `RateLimits` | the fixed-window rate limiter, in memory, over Redis, and over a Redis that comes and goes |
| `GeneratedText`, `WireMapper`, `HumanAmounts` | what is printed: Dart and YAML literals, the generated Firestore mapper, the price |
| `Options`, `Clocks`, `Decimals` | shared helpers |

## How it is modelled

A protocol is a state, a `Step` datatype and a total function `Exec`. A step that is not possible in
a state leaves the state as it is, so a statement about `Run(INIT, steps)` for all `steps` is a
statement about every interleaving, every crash point and every stall. Counters such as `epochs`,
`wins` or `starts` record what has happened and are read by no step except to number a reservation.
`Purchases` keeps such records beside the accept protocol instead of inside it.

Code that updates an object is a class with the same fields and methods. `BuildWorker` and `Service`
run against an arbitrary function `others` that says what everybody else does between any two of
their commands; each command they issue takes one step of the protocol, so each turn is a run of it
and every theorem about runs applies to it.

Clocks, the network, model calls, the analyzer, the generator and the tools of the build are
parameters or answers chosen freely: the theorems hold for all of them.

What is proved of builds (`BuildSafety`, `Finality`) is stated under a timing hypothesis
(`Config.timed`): no lease lapses between a reserve or a successful renew and the save or
acknowledgement that follows it, and no recovery and no status poll is so slow with its write that a
worker has finished the job, or started it again, since the record was read.
`Fencing.LapsingIsSafeWhen` shows that it asks no more of leases than it needs: any other lapse leads to
harm in some continuation. `RewritingIsSafeWhen` and `WritingIsSafeWhen` say exactly which writes of
others keep the invariant. What is proved of payments (`Accepting`, `AcceptService`, `Purchases`) does
not need this: it holds however workers stall and whatever is built twice. It is stated under another
one (`Nonces.Prompt`): the SET of a claim reaches Redis within the grace period of the clock reading
the claim is based on, and `BothGranted` says exactly when two claims win without it. Only what is
said of the money assumes an honest facilitator.

## Where the code does less than it says

- `src/service/queue.py:206-212` says that LREM's reply keeps a job from being requeued once per
  reaper. Each requeue does use up a reservation (`RequeuedOncePerReservation`), but reapers that
  share a snapshot can requeue an id more than once: a slow one acts on an EXISTS that is out of date
  and takes the job from a worker whose lease is live (`StaleReaperRequeuesAgain`;
  `TakesALiveLease` has the exact condition).
- LREM and LPUSH are two commands, and a reaper that crashes between them loses the id
  (`ReaperCrashLosesAnId`; by `PushedOnce` nothing else loses one). So are LMOVE and SET, and a job can
  go back into the queue while a live worker believes it holds it (`SlowReserveIsRequeued`;
  `StillInflight` has the exact condition).
- A heartbeat may save a terminal status before the acknowledgement, and a job whose record reads
  `succeeded` can still go back to `queued` (`TerminalBeforeAckIsNotFinal`). A record is final exactly
  when its job has been acknowledged (`FinalMeansAcknowledged`).
- `src/service/jobs.py:155-160` says that a record is written only by the holder of its lease, so that
  the last write may win. Three writers break that. A holder whose lease lapsed after its last look
  overwrites the next one (`UntimedSavesAreNotFenced`; `Fencing.LapsingIsSafeWhen` has the exact
  condition).
- Recovery moves all lapsed ids and only then reads and rewrites their records
  (`src/service/worker.py:148-158`). If another worker takes such a job, finishes and acknowledges it
  in between, the rewrite undoes the result, and the id is in no list any more
  (`LateRewriteUndoesAResult`).
- A status poll reads a record, finds it stale and saves it as failed (`src/service/jobs.py:213-230`).
  If the job is built and acknowledged in between, the poll fails a build that succeeded
  (`LatePollFailsAResult`). Of all steps these two are the only ones that change an acknowledged record
  (`AckedStepIsFinal`).
- Attempts are counted by the first save (`src/service/worker.py:127-135`). An error before it, which
  `src/service/worker.py:238-240` swallows, counts nothing, so a job can be reserved any number of
  times without an attempt (`ErrorsAreNotAttempts`).
- `src/payments/replay.py:115-132` keeps a nonce for the remaining lifetime plus a grace period. Two
  claims of one authorization both win exactly when the second SET is held up past that
  (`BothGranted`, `StallGrantsTwice`).
- A Redis key goes with its authorization and the grace period, and a later authorization of the same
  payer may carry the same EIP-3009 nonce. The store admits it as a new one
  (`ForgottenNonceIsClaimedAgain`). That no nonce buys two jobs all the same is due to the chain and
  to a facilitator that reports what it did (`OneNonceBuysOneJob`).
- The in-memory nonce store forgets expired claims because "expiry is enforced independently during
  verification" (`src/payments/replay.py:69-72`). Verification allows for clock skew and the store
  does not: with a positive `X402_CLOCK_SKEW`, a payment within the skew of its expiry verifies
  after its claim has been forgotten (`VerifiedClaimsAreRemembered` has the exact condition). On a
  clock that goes back a live authorization can be granted twice (`ClockGoingBackGrantsTwice`;
  `GrantedAgainWhen` has the exact condition).
- A crash between the save of a paid job and its push (`src/service/app.py:1083-1086`) leaves a paid
  job that nothing will ever build (`CrashBeforePushDropsAJob`, `DroppedIsNeverBuilt`).
  `PaidJobIsAccountedFor` says exactly where a paid job can be.
- The rate limiter's answer is "seconds until it could" (`src/service/ratelimit.py:86`), but it is
  rounded down: waiting that long is enough exactly when the remaining time is a whole number of
  seconds or at most one (`WaitingTheAnswerOut`, `WaitingTheRedisAnswerOut`).
- A requeued build starts in the directory its first attempt left behind. The incremental sync then
  equals a fresh write exactly when everything that was there has been written over
  (`DiskIsFresh`).
- `yaml_scalar` collapses white space but lets other control characters through, and a scalar with
  one of them does not parse (`YamlScalarRoundTrip`); `dart_string` drops carriage returns and
  nothing else (`ReturnsAreTheOnlyLoss`).
- A price with more than 28 significant digits is rounded before it is printed (`PriceIsExact`).

## Model

| member | source | states |
|---|---|---|
| LeasedFifo.RequeueAllAppends | src/service/queue.py:119-126 | requeueing a batch of lapsed ids puts exactly them, in the order of the batch, behind everything already pending and touches no other lease |
| LeasedFifo.NeverRequeuedLeaveInOrder | src/service/queue.py:93-130 | over every run of pushes, reserves, lapses, renewals, acks and requeues, the ids that are never requeued are reserved exactly in push order |
| LeasedFifo.LapseAllHolds | src/service/queue.py:119-126 | the passing of time takes the owner from exactly the leases that lapse, and moves nothing |
| QueueCommands.RemoveOneCounts | src/service/queue.py:217 | LREM with count 1 takes away one occurrence of that id and nothing else |
| QueueCommands.RemoveAllCounts | src/service/queue.py:200-203 | LREM with count 0 takes away every occurrence of that id and nothing else |
| QueueCommands.ExecKeepsBalance | src/service/queue.py:161-220 | every single Redis command, crash or expiry keeps the books: occurrences in pending, inflight and reapers' hands balance what was pushed, reserved, requeued, acked and lost |
| QueueCommands.Conservation | src/service/queue.py:161-220 | in every interleaving of commands, crashes and expiries, occurrences of an id plus those acked plus those lost with a crashed reaper equal those pushed |
| QueueCommands.PushedOnce | src/service/queue.py:161-220 | an id pushed once is in at most one place, and in exactly one until it is acked or a reaper crashed holding it |
| QueueCommands.RequeuedOncePerReservation | src/service/queue.py:205-220 | over any stretch of any run all reapers together requeue an id at most once more often than it is reserved in that stretch |
| QueueCommands.HistoryGrows | src/service/queue.py:161-220 | over any run no push, ack or loss is taken back |
| QueueCommands.SweepRecovers | src/service/queue.py:205-220 | from any state, one undisturbed sweep by any idle process puts back every inflight id whose lease is gone, wherever its holder died |
| QueueSteps.PushIsPush | src/service/queue.py:161-162 | the LPUSH of a push is a push onto the leased FIFO |
| QueueSteps.ReserveIsReserve | src/service/queue.py:164-175 | LMOVE and SET, undisturbed, reserve the oldest waiting id under a lease of the process that asked, and do nothing on an empty list |
| QueueSteps.RenewIsTheOwners | src/service/queue.py:177-198 | a renew gets past its GET exactly for the owner of a lease that is there, and moves nothing |
| QueueSteps.AckIsAck | src/service/queue.py:200-203 | LREM and DELETE, undisturbed, are the ack of the leased FIFO |
| QueueSteps.ReapIsRequeue | src/service/queue.py:214-219 | what a reaper does about an id that is in flight once, undisturbed, is the requeue of the leased FIFO: nothing under a live lease, and otherwise to the end of the line |
| QueueRaces.TakesALiveLease | src/service/queue.py:214-218 | whatever happens between a reaper's EXISTS and its LREM, the LREM takes the job of a live lease exactly when the id is inflight and a SET of its lease has come since that no expiry or ack has undone |
| QueueRaces.StaleReaperRequeuesAgain | src/service/queue.py:205-220 | two reapers that share a snapshot requeue one id twice, the second time from a worker whose lease is live |
| QueueRaces.LeaseHistory | src/service/queue.py:158-203 | after any run a lease key exists exactly when it was last set after it was last removed |
| QueueRaces.InflightHistory | src/service/queue.py:161-220 | after any run an id pushed once is inflight exactly when it was last moved there after it was last removed |
| QueueRaces.StillInflight | src/service/queue.py:167-175 | after its LMOVE a job is still inflight, at the SET of its lease or any later moment, exactly when no reaper and no ack has removed it since, or it has been moved again after that |
| QueueRaces.ReaperCrashLosesAnId | src/service/queue.py:217-218 | a reaper that crashes between LREM and LPUSH loses an id nobody acknowledged |
| QueueRaces.SlowReserveIsRequeued | src/service/queue.py:167-175 | a reaper that looks between LMOVE and SET requeues a job whose worker is alive and then takes the lease |
| BuildQueues.InMemoryBuildQueue.Push | src/service/queue.py:93-95 | pushes onto the leased FIFO, seen at any time |
| BuildQueues.InMemoryBuildQueue.Reserve | src/service/queue.py:97-103 | hands out the first waiting id, if any, under a lease of this owner that is live for exactly the lease time |
| BuildQueues.InMemoryBuildQueue.Renew | src/service/queue.py:105-113 | renews for the owner only; a lease that lapsed but was not reclaimed is revived, because expiry is not checked |
| BuildQueues.InMemoryBuildQueue.Ack | src/service/queue.py:115-117 | drops the lease and nothing else |
| BuildQueues.InMemoryBuildQueue.RequeueExpired | src/service/queue.py:119-126 | moves exactly the lapsed ids behind the waiting ones, in the order in which their leases were first taken |
| BuildQueues.InMemoryBuildQueue.FirstInFirstOut | src/service/queue.py:93-130 | over every run of this queue on a clock that does not go back, ids never requeued are reserved in push order and those pending follow in that order |
| BuildQueues.ViewLater | src/service/queue.py:119-126 | between two readings of the clock leases lapse and nothing else happens, in both queues |
| BuildQueues.RedisBuildQueue.Push | src/service/queue.py:161-162 | LPUSH at the left end is a push onto the leased FIFO |
| BuildQueues.RedisBuildQueue.Reserve | src/service/queue.py:164-175 | LMOVE and SET together hand out the first waiting id under a lease live for exactly the lease time |
| BuildQueues.RedisBuildQueue.Renew | src/service/queue.py:177-198 | of an id in flight, renews exactly for the owner of a live lease if the store can be asked, and never revives a lapsed one |
| BuildQueues.RedisBuildQueue.Ack | src/service/queue.py:200-203 | LREM and DELETE drop the id and its lease and nothing else |
| BuildQueues.RedisBuildQueue.RequeueExpired | src/service/queue.py:205-220 | with each id in flight once, moves exactly the lapsed ids behind the waiting ones, the latest reservation first |
| BuildQueues.RedisBuildQueue.FirstInFirstOut | src/service/queue.py:161-220 | over every run of this queue in which no id is pushed twice and the clock does not go back, ids never requeued are reserved in push order and those pending follow in that order |
| BuildQueues.MovedBack | src/service/queue.py:205-220 | moving a list's lapsed ids to the back of the line is the abstract requeue of all of them, for both queues |
| Jobs.RequeueOutlastsPolls | src/service/jobs.py:196-230 | a requeued record survives any number of status polls exactly as long as none comes more than half an hour after the requeue, however long it was silent before |
| Jobs.BuildEndsTerminal | src/service/worker.py:171-183 | whatever the build thread writes and however it ends, the record is terminal, keeps its attempt, has succeeded exactly if the thread said so last and raised nothing, and otherwise says why it failed |
| BuildSafety.StepKeeps | src/service/worker.py:102-240 | every step of workers, errors, recovery, status polls, accept path and expiring leases keeps placement, ownership, coherence of copies, attempt counts and fencing |
| Fencing.LapsingIsSafeWhen | src/service/worker.py:102-217 | a lapse keeps the invariant, and placement, attempt bounds and the order of saves hold in every continuation after it, exactly if its owner is not between a reserve or successful renew and the save or ack after it; otherwise some continuation breaks one of them |
| BuildSafety.RewritingIsSafeWhen | src/service/worker.py:148-158 | putting a record back to queued as it reads, whenever that is done, keeps the invariant exactly while the job is not acknowledged and nobody is about to acknowledge it |
| BuildSafety.WritingIsSafeWhen | src/service/jobs.py:192-230 | a write of a record by anybody but its holder, however old what it read, keeps the invariant exactly if it has the attempts the holder knows of and no fewer than were started, and is terminal if the job is finished |
| BuildSafety.Reachable | src/service/worker.py:102-230 | that invariant holds in every state of every run |
| BuildSafety.NothingIsLost | src/service/worker.py:102-160 | an id that was queued is at every moment in exactly one of waiting, held and acknowledged, and an acknowledged record is terminal |
| BuildSafety.SavesFollowReservations | src/service/worker.py:102-217 | the workers' saves of one record are ordered by reservation, so a worker whose job was reserved again never overwrites the newer holder |
| BuildSafety.AttemptsAreBounded | src/service/worker.py:120-139 | a build is started at most max_attempts times, and all reservations but one are a start or were cut short by a crash or an error before the start |
| BuildSafety.LastReservationGivesUp | src/service/worker.py:127-131 | if no reservation was cut short before its start, there are at most max_attempts + 1, and with that many the last one starts nothing and leaves, once acked, a terminal record with its attempts used up |
| BuildSafety.ExhaustedJobIsFailed | src/service/worker.py:120-131 | a worker that reserves a job with no attempts left fails it with that reason, acks it and starts nothing |
| BuildSafety.JobWithAttemptsLeftIsStarted | src/service/worker.py:127-135 | a worker that reserves a job with an attempt left counts it, puts the record to running with a heartbeat, and starts the build |
| BuildSafety.EndedJobIsDropped | src/service/worker.py:112-125 | a worker that reserves a job that has ended, or one without a record, acks it and changes no record |
| BuildSafety.AckedStepIsFinal | src/service/worker.py:102-240 | a step changes the record of an acknowledged job exactly if it is the write of a recovery or of a status poll that came too late |
| BuildSafety.FinishedMeansFinished | src/service/worker.py:120-125 | under the timing hypothesis an acknowledged record is terminal and the same in every continuation of the run |
| Finality.NotAcknowledgedCanBeUndone | src/service/worker.py:141-160 | from every reachable state a record that is not acknowledged has a continuation that puts it back to queued, whatever it says |
| Finality.FinalMeansAcknowledged | src/service/worker.py:120-160 | a record stays as it is in every continuation exactly when its job has been acknowledged |
| BuildSafety.StepKeepsOrders | src/service/app.py:1070-1086 | payment, preview and document of a record are set when it is created and changed by no worker, reaper or poll |
| BuildSafety.OrdersNeverChange | src/service/worker.py:102-230 | the same over every run |
| BuildGaps.UntimedSavesAreNotFenced | src/service/worker.py:192-199 | without the timing hypothesis a stalled worker's heartbeat overwrites the newer holder and takes back a counted attempt |
| BuildGaps.TerminalBeforeAckIsNotFinal | src/service/worker.py:148-158 | a saved success that was not acknowledged can become queued again |
| BuildGaps.LateRewriteUndoesAResult | src/service/worker.py:148-158 | recovery moves the id and rewrites the record later: if another worker builds, saves and acks the job in between, its result goes back to queued with the id in no list |
| BuildGaps.LatePollFailsAResult | src/service/jobs.py:213-230 | a status poll reads a record as stale and saves it later: if a worker builds, saves and acks the job in between, its success turns into a failure |
| BuildGaps.ErrorsAreNotAttempts | src/service/worker.py:108-135 | errors between the reserve and the first save count no attempt, so there are runs with any number of reservations, no start and no death |
| BuildWorkers.OthersKeepPhase | src/service/worker.py:70-98 | nothing others do moves a worker's own program counter or copy |
| BuildWorkers.BuildWorker.MoveAbandoned | src/service/queue.py:205-220 | asks of every id in flight, others acting in between, and moves and reports lapsed ones only, each once; unless an error breaks the scan off, every id is moved or was not lapsed at some moment of the scan |
| BuildWorkers.Cluster.RewriteOne | src/service/worker.py:149-158 | the field-by-field change of the record that was read, written back, is one rewrite of the protocol |
| BuildWorkers.BuildWorker.RewriteRecord | src/service/worker.py:149-158 | reads one record and writes it back, anything else in between and an error in either command |
| BuildWorkers.BuildWorker.RecoverAbandoned | src/service/worker.py:141-160 | moves exactly the ids it reports, so without an error every abandoned one, and then, others acting in between, rewrites exactly their records in the same order; an error during the scan leaves all records as they are, a later one all but the first of them |
| BuildWorkers.BuildWorker.RunOnce | src/service/worker.py:102-139 | one turn, under any interference and with an error in any command, is a run of the protocol that ends with the worker idle; it raises only if some command goes wrong, and otherwise it has looked after every id in flight if recovery was due, and reports a job exactly when one was waiting at its reserve, which it then saw through to its ack or to a lost lease |
| BuildWorkers.BuildWorker.RunReserved | src/service/worker.py:112-139 | whatever the record says, the turn comes back to idle, and unless a command goes wrong it does so by acking that job or by standing down from a lease that is gone |
| BuildWorkers.BuildWorker.ReadRecord | src/service/worker.py:112-128 | missing and finished records lead to the ack, exhausted ones to giving up, all others to a start, and an error to the next turn |
| BuildWorkers.BuildWorker.Execute | src/service/worker.py:164-217 | completes only after a last renew and the final save, of exactly what the build thread made of the job, so that the ack is next; a lost lease or an error leaves the worker idle with nothing to ack |
| BuildWorkers.BuildWorker.Heartbeat | src/service/worker.py:189-199 | saves only after a renew that returned true, and stands down having saved nothing otherwise |
| BuildWorkers.BuildWorker.Join | src/service/worker.py:171-191 | the copy holds everything the build thread wrote, and its failure if it raised or reported nothing |
| BuildWorkers.BuildWorker.GiveUp | src/service/worker.py:219-230 | the field-by-field rewrite is the protocol's failed record, saved before the ack |
| BuildWorkers.BuildWorker.WriteResult | src/service/worker.py:207-217 | the final record keeps the build's own finishing time and takes one if it has none |
| Nonces.InMemoryNonceStore.EvictExpired | src/payments/replay.py:66-79 | drops exactly the entries that have expired |
| Nonces.InMemoryNonceStore.TryClaim | src/payments/replay.py:53-60 | true exactly when no unexpired entry has the key, which is then recorded |
| Nonces.EvictionIsInvisible | src/payments/replay.py:53-79 | on a clock that does not go back, the evicting store answers like one that never forgets exactly for claims that have not expired or were never made before |
| Nonces.LiveOnlyOnce | src/payments/replay.py:53-79 | a second grant of one authorization comes only after it has expired |
| Nonces.GrantedAgainWhen | src/payments/replay.py:53-79 | on any clock, after a granted claim the next claim of that key is granted exactly when it or a claim in between read a time at or past the first one's expiry |
| Nonces.ClockGoingBackGrantsTwice | src/payments/replay.py:66-79 | so on a clock that goes back a live authorization is granted twice |
| Nonces.RedisNonceStore.TryClaim | src/payments/replay.py:115-132 | true exactly when time remains, the store is reachable and the key is absent; the key then lives for the remaining time plus grace |
| Nonces.GrantedAtMostOnce | src/payments/replay.py:115-132 | in any interleaving, with any grace, one authorization is granted at most once for all time if its SETs arrive within the grace period |
| Nonces.BothGranted | src/payments/replay.py:115-132 | in any run from any store, after a granted claim the next claim of that key wins exactly when time is left and its SET comes after the first key's deadline, which for one authorization takes a stall longer than the grace |
| Nonces.StallGrantsTwice | src/payments/replay.py:115-132 | such a stall exists for every grace period |
| Payments.ReplayKeyIdentifies | src/payments/eip3009.py:100-114 | two replay keys are equal exactly when chain, contract, payer and nonce are, as EIP-3009 scopes nonces |
| Payments.VerdictMeans | src/payments/facilitator.py:231-266 | a response is read as paid exactly when it says success with a status below 400, and as decisive exactly then or on a definite refusal |
| Payments.Settle | src/payments/facilitator.py:199-229 | the loop stops at the first decisive answer, posts nothing after it, and otherwise returns the last unknown one after retries + 1 posts |
| Payments.SettleIsDetermined | src/payments/facilitator.py:199-229 | the loop's answer is that of the first decisive outcome among the first retries + 1, or of the last of them |
| Payments.RetriesPayOnce | src/payments/facilitator.py:199-229 | against a ledger with single-use nonces, any number of attempts that reach it moves the money once, and none moves nothing |
| Payments.SettledMeansPaid | src/payments/facilitator.py:199-266 | a settlement reported as done moved the money exactly once, any other at most once |
| Accepting.GrantKeepsNonces | src/payments/x402.py:171-176 | a claim that wins had never won before, and keeps every other claim spent |
| Accepting.StepKeeps | src/service/app.py:1003-1091 | every step of requests, workers and clocks, lapses at any moment included, keeps: a nonce won once, settled at most once, held by one request or turned into one paid job |
| Accepting.OneAuthorizationBuysOneJob | src/service/queue.py:27-34 | in every run of requests, workers, stalls, crashes and retries, even if builds run twice, a paid job was bought by an authorization claimed once and settled once, and no other paid job by the same one |
| Accepting.BuildPartIsARun | src/service/app.py:1003-1091 | whatever goes on around them, the builds go through a run of the build protocol, so every theorem about those runs holds end to end |
| Accepting.JobsAreBuiltBoundedly | src/service/worker.py:127-131 | end to end, too, a job is built at most max_attempts times under the timing hypothesis |
| Accepting.ClaimedAndSettledOnce | src/payments/x402.py:137-193 | no authorization is claimed or settled twice, with or without a job |
| Accepting.EveryJobIsPaidOrPreview | src/service/app.py:1065-1083 | in every run every record is either paid for or a free preview, and a preview exactly if nothing bought it |
| Accepting.OnlyGrantsTouchNonces | src/payments/x402.py:141-176 | over any run the nonce store changes only if some request that passed every check before it wins its claim |
| Accepting.ClaimsAreNeverReleased | src/payments/x402.py:178-190 | over any run, with settlements refused, unknown or done, a claimed key stays and its deadline is never brought forward |
| Accepting.VerifiedClaimsAreRemembered | src/payments/replay.py:66-79 | for a claim made as the payment verifies, the evicting store differs from one that never forgets exactly when the authorization was claimed before and has reached its validBefore, which takes a positive clock skew |
| AcceptService.OthersKeep | src/service/app.py:999-1091 | nothing others do moves a request or takes the id of its job |
| AcceptService.Service.CheckPayment | src/payments/x402.py:141-169 | verifies exactly a confirmed payment whose header decodes to a payload on our network, made out to us, signed by its payer, worth at least the price and in its time, and what it verifies is that authorization; anything else is refused as such, with the nonce untouched and no money asked for |
| AcceptService.Service.SettlePayment | src/payments/x402.py:137-193 | returns true exactly at a settlement of the authorization the header shows, with its transaction recorded; every refusal before the nonce leaves the nonce alone, and otherwise there is one claim, of that authorization, and, only if it won and only after it, one request for the money |
| AcceptService.Service.ClaimAndSettle | src/payments/x402.py:171-193 | claims once, asks for the money once after that and only if the claim won, and reports a lost claim, a refusal and an unknown outcome apart |
| AcceptService.Service.ClaimNonce | src/payments/replay.py:115-132 | a win is the first one of this authorization, a loss leaves the store as it was |
| AcceptService.Service.CreateBuild | src/service/app.py:999-1091 | answers 202 exactly when the job is recorded, with the document that was sent and as paid, queued and bought by one settlement of the authorization the header shows; refuses in the order 429, 503, 422, 402; spends no nonce on any refusal before the claim, so on no payment that could not be accepted, and refuses none before it that could |
| Purchases.PaidJobsAreSound | src/payments/eip3009.py:240-277 | every paid job was bought with a payload its request showed, signed by its payer, made out to us and worth at least the price |
| Purchases.PaidJobIsAccountedFor | src/service/app.py:1065-1091 | a paid job is in exactly one place: queued, about to be queued by its request, or dropped because that request ended first |
| Purchases.SettledPaymentIsAccountedFor | src/service/app.py:1048-1086 | a settled payment has exactly one fate: it bought one job, its request still holds it, or that request ended before there was a job |
| Purchases.EveryJobIsPaidFor | src/payments/x402.py:137-193 | over every run in which the facilitator says paid only of transfers it has made, the recipient has received at least the price for every settled payment, and so for every paid job |
| Purchases.OneNonceBuysOneJob | src/payments/replay.py:97-132 | over the same runs no two paid jobs were bought with the same EIP-3009 nonce, whatever else the two authorizations say and although the store forgets |
| Purchases.DroppedIsNeverBuilt | src/service/app.py:1083-1086 | in any continuation of any run a dropped job is in no list, no worker is on it and no build of it was started |
| PurchaseGaps.CrashBeforePushDropsAJob | src/service/app.py:1083-1086 | a process that dies between the save and the push leaves a job that is paid for and dropped |
| PurchaseGaps.ForgottenNonceIsClaimedAgain | src/payments/replay.py:115-132 | after the key of one authorization has gone, a later one with the same nonce wins its claim too, and if the facilitator says paid it buys a second job with no second transfer |
| Ownership.OwnedByMembers | src/ports/ownership.py:60-70 | what reaches an agent is exactly what it owns |
| Ownership.FatalMembers | src/ports/analyzer.py:76-81 | the errors of a round are exactly those reported as errors and the warnings that tell of a hallucination or of an analysis that did not run |
| Ownership.CulpritBeforePath | src/ports/ownership.py:21-57 | where the code tells the culprit the file does not matter: a missing provider goes to the logic agent, an out-of-lane file to its writer, and what planning froze ends the build |
| Ownership.MarkIdentifies | src/graph/nodes.py:248 | two rounds' marks agree exactly on code, file and line |
| Ownership.OwnerSeesThroughPrefixes | src/ports/ownership.py:60-70 | a path in relative, dotted or Windows form has the owner of the plain path |
| RepairLoop.OwnersFollowLanes | src/ports/ownership.py:60-70 | any other diagnostic is the widget agent's exactly if its file is in that agent's lane, and the logic agent's exactly for a provider file or the entry point, which are in its lane |
| RepairLoop.MergeOverwritesNothing | src/graph/nodes.py:84-154 | whatever the generator writes, the widget tree, the state tree and the plan are disjoint in every reachable state, so the merge loses no file |
| RepairLoop.DiskIsFresh | src/graph/nodes.py:188-200 | after every analysis the directory equals a fresh write of the current tree exactly when every file there at the start has been written over |
| RepairLoop.ExecKeepsBudget | src/graph/builder.py:54-74 | every node brings the end strictly nearer |
| RepairLoop.BudgetHolds | src/graph/nodes.py:242-329 | in every run planning and packaging are visited at most once, each agent and the analysis at most max_repairs + 1 times, and the repair counter is the number of failing rounds |
| RepairLoop.BuildsEnd | src/graph/builder.py:54-74 | every build is at its end after 3 * max_repairs + 5 nodes at the latest |
| RepairLoop.EveryDiagnosticIsDelivered | src/graph/nodes.py:70-118 | before the next analysis every diagnostic of a failing round has reached an agent, and after a stalled round the agent the owner route would not have picked got the whole batch |
| RepairLoop.RepairKeepsUntouchedFiles | src/graph/nodes.py:84-154 | a pass leaves exactly the files of its lane that were written, and on a repair every other file of its tree as it was; neither agent touches the other's tree or the plan |
| RepairLoop.OutOfLaneComesBack | src/graph/nodes.py:84-145 | each file written outside an agent's lane is dropped and comes back as an error to the agent that wrote it |
| RepairLoop.RoundLeads | src/graph/nodes.py:311-331 | a round leads to packaging exactly without fatal diagnostics, and to a repair exactly when all of them have an owner and the budget lasts, stalled or not; the repair begins with the widget agent exactly if it owns any of them, and the other way round if the round was stalled |
| RepairLoop.RoundConcludes | src/graph/nodes.py:206-273 | in any run a round's diagnostics are exactly the fatal ones its sources reported, the counter ticks exactly if there are any, and it is stalled exactly if the round before ended with the same |
| QaNode.Workspace.UnlinkStale | src/graph/nodes.py:192-194 | removes exactly what was written before and is no longer part of the project |
| QaNode.Workspace.WriteAll | src/graph/nodes.py:197-200 | every file of the project is on disk with its content, and nothing else changed |
| QaNode.Merge | src/graph/state.py:72-83 | the successive updates give the merged tree |
| QaNode.Analyse | src/graph/nodes.py:160-275 | the node's steps on a directory are one analysis step of the graph model |
| PackagingGate.UnverifiedBuildsNothing | src/graph/nodes.py:284-306 | a run without verified payment ends without an APK, whatever its tools answer |
| PackagingGate.ServerDecidesPayment | src/service/app.py:1127-1175 | a record is built exactly if it is either paid or a preview and has a document, and the graph is told it is paid for exactly if the record is, whatever flag the document carries |
| PackagingGate.NoApkWithoutPayment | src/service/app.py:1127-1227 | an APK comes out only of a job the accept path marked paid, whatever flag the buyer's document carries |
| PackagingGate.SucceededMeansPackaged | src/service/app.py:1203-1246 | a job is reported succeeded exactly when the graph reached packaging and packaging did not fail, and failed otherwise |
| PackagingGate.SucceededWithTheApk | src/service/app.py:1203-1227 | a paid job that succeeded has exactly the APK the packaging tool answered when the graph packaged, and succeeded exactly if that did not fail; a preview succeeded exactly if the graph got to packaging and has no APK; a failed job is given none |
| RateLimits.RateLimiter.CheckLocal | src/service/ratelimit.py:115-131 | the answer and the windows after one check, sweep included |
| RateLimits.RateLimiter.Sweep | src/service/ratelimit.py:128-130 | drops exactly the windows that are over |
| RateLimits.SweepIsInvisible | src/service/ratelimit.py:125-130 | no answer of any run differs from those of a limiter that never sweeps |
| RateLimits.AnswersAre | src/service/ratelimit.py:115-131 | every answer of every run, from the run alone: a check is let through exactly if it is at most the limit-th of its identity since the one that opened its window, and is otherwise told the time to that window's end |
| RateLimits.RefusedAtTheLimit | src/service/ratelimit.py:115-131 | a check is refused only when exactly the limit was let through since its window opened, less than a window ago |
| RateLimits.AtMostTwiceTheLimit | src/service/ratelimit.py:115-131 | in any interval one window long, wherever it begins, one identity is allowed at most twice the limit |
| RateLimits.AtMostTheLimitPerWindow | src/service/ratelimit.py:115-131 | from the check that opens a window to its end, the limiter, sweeps included, allows at most the limit |
| RateLimits.WaitingTheAnswerOut | src/service/ratelimit.py:115-123 | with local windows, waiting the answered time is enough exactly when the remaining time is whole or at most a second |
| RateLimits.WaitingTheRedisAnswerOut | src/service/ratelimit.py:101-113 | the same of the aligned buckets |
| RateLimits.RedisRate | src/service/ratelimit.py:101-113 | at most the limit in an aligned bucket and twice the limit in any interval of one window, because no counter expires before its bucket ends |
| RateLimits.RedisAnswersAre | src/service/ratelimit.py:101-113 | over Redis every answer of every run, too: let through exactly if at most the limit-th of its identity in its aligned bucket, and otherwise told the time to the bucket's end |
| RateLimits.SharedRateLimiter.CheckRedis | src/service/ratelimit.py:101-113 | counts in the aligned bucket and answers the time to its end |
| RateLimits.SharedRateLimiter.Check | src/service/ratelimit.py:85-99 | a limit of zero lets everything through and counts nothing; a store that cannot be asked, or whose reply is lost, leaves the answer to the local windows, counted in the shared bucket as well in the second case |
| RateLimits.MixedRate | src/service/ratelimit.py:85-131 | with a store that fails and comes back at any moment, in any interval of one window one identity is allowed at most twice the limit by the store and twice the limit by each process, over every run of any number of processes |
| GeneratedText.ReplacesAreOnePass | src/ports/templates.py:165-180 | the five chained replaces equal one left-to-right escape of each character |
| GeneratedText.DartLiteralRoundTrip | src/ports/templates.py:165-180 | between single quotes the result is one literal that ends at the added quote, meets no interpolation or line break, and means the input without carriage returns |
| GeneratedText.ReturnsAreTheOnlyLoss | src/ports/templates.py:165-180 | the literal means the input itself exactly when that has no carriage return |
| GeneratedText.CollapsingKeepsWords | src/ports/templates.py:43-51 | collapsing white space keeps the words and their order, and doing it twice is doing it once |
| GeneratedText.CollapsingLosesOnlyLayout | src/ports/templates.py:43-51 | collapsing keeps every character that is not a blank or layout, in order |
| GeneratedText.CollapsedIsTidy | src/ports/templates.py:43-51 | the collapsed text is one line without tabs or line ends of any kind, trimmed, with one blank between words |
| GeneratedText.YamlScalarRoundTrip | src/ports/templates.py:43-51 | read back under sections 5.1 and 7.3.2 of YAML 1.2, the scalar is the collapsed text exactly when no control character other than white space is in the input, and not a scalar otherwise |
| WireMapper.EmittedText | src/ports/templates.py:183-218 | the expressions that are evaluated, defaults included, print as the text wire_read and wire_write emit |
| WireMapper.ReadOutcome | src/ports/templates.py:183-206 | reading a field of any document gives the blank value of its kind when it is missing or null, its value when it is of the kind the database keeps, and a failed cast exactly otherwise |
| WireMapper.ReadableWhen | src/ports/templates.py:702-715 | a document reads back exactly when no field of it holds a value of another type |
| WireMapper.WritesEvery | src/ports/templates.py:954-980 | toMap stores every field under its own name, dates as Timestamps |
| WireMapper.MapperRoundTrip | src/ports/templates.py:954-980 | for every data model and every object of its class, what toMap stores reads back without a failed cast and as the same object |
| HumanAmounts.PrintedWithPoint | src/payments/x402.py:218-234 | with decimals the text has a point and at least two places, more only as far as the last digit that is not zero, and is worth the rounded amount |
| HumanAmounts.PrintedWithoutPoint | src/payments/x402.py:227-230 | without decimals the text is the integer and has no point |
| HumanAmounts.RoundedIsNearest | src/payments/x402.py:227 | beyond the precision the amount shown is the nearest with 28 digits, the even one of two |
| HumanAmounts.LosesDigitsWhen | src/payments/x402.py:227 | the precision costs something exactly if a digit after the 28th is not zero |
| HumanAmounts.PriceIsExact | src/payments/x402.py:218-234 | read back and scaled, the printed price is the atomic price exactly when all digits after the 28th are zero |
| HumanAmounts.SmallPricesAreExact | src/payments/x402.py:218-234 | every price below 10^28 is printed exactly |
| HumanAmounts.PricesAreDistinguished | src/payments/x402.py:218-234 | two prices printed alike are the same price, unless digits were lost |

## Left out

- BuildSafety.SavesFollowReservations: holds under the timing hypothesis and for a store that hands out copies; the in-memory store shares live records, so a stalled build thread writes through it.
- BuildQueues.RedisBuildQueue.RequeueExpired: says nothing about a list that holds an id twice; duplicates are covered command by command in `QueueCommands`.
- BuildQueues.RedisBuildQueue.Reserve: LMOVE and SET are one unit here, as are GET and EXPIRE in Renew; `QueueCommands` has them as separate commands.
- BuildQueues.InMemoryBuildQueue.Renew: the protocol of `BuildProtocol` renews like the Redis queue; reviving a lapsed lease appears in `LeasedFifo` and here only.
- BuildWorkers.BuildWorker.MoveAbandoned: the EXISTS, LREM and LPUSH of one id are one unit, with an error before or after it; errors between them are in `QueueCommands`. In memory the whole batch is one, which is the case in which nobody acts in between.
- BuildWorkers.Cluster.RewriteOne: under the timing hypothesis a write that would come too late is left out, which is what the hypothesis says of it.
- Nonces.GrantedAtMostOnce: needs each claim's SET within the grace period of its clock reading; `BothGranted` says exactly when two claims win without it.
- Accepting.OneAuthorizationBuysOneJob: composed with the Redis nonce store; for the in-memory store see `GrantedAgainWhen` and `VerifiedClaimsAreRemembered`. Job ids are taken to be fresh, as random ids are.
- AcceptService.Service.ClaimNonce: reads the clock and sets the key as one unit; in `Accepting` they are two steps with anything in between.
- Purchases.EveryJobIsPaidFor: assumes a facilitator that says paid only of a transfer of its own, as does OneNonceBuysOneJob; nothing else here does.
- WireMapper.MapperRoundTrip: a data model whose field names repeat or include `id` gives a Dart class that does not compile; the schema does not forbid it, and the theorem is about the objects of classes that exist.
- The two writes by which a paid job is created and marked paid (`src/service/app.py:1070-1083`) are one step.
- Old build threads that keep writing to the build directory after their worker stood down; artifact pruning and the disk sweep.
- The settlement's transaction, the build directory and the usage kept on the record of a job.
- HTTP routes, landing page, health report, MCP dispatch, client identity, `DevPaymentVerifier`, `UnsettledFacilitator` and the reporting fields `last_*` under concurrent calls.
- Signature recovery, header and JSON decoding, checksum addresses: `Acceptable` takes the decoded payload and the recovered signer.
- Facilitator transport, the Redis server and the chain, beyond command semantics, response sequences and a ledger.
- Toolchain, packaging and signing: `src/build/` is not part of this model. Regex scanning of generated Dart, pubspec edits, prompts and model calls.
- The order of sorted lists of diagnostics and paths, and the file system beyond a map from path to content.
- The time to live of job records, liveness under fair scheduling, and LangGraph's recursion limit.
- Negative prices and limits, and a lease of zero seconds.
