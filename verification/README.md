# Proofs about the back end's protocols

The back end of this site keeps background jobs, rate limits, idempotency keys and refresh sessions in
Redis, talks to PostgreSQL through its own connection pool with retries, migrates its schema at every
boot, consumes Kafka messages, and signs link tokens. Many threads and processes do this at once, and
any of them may die. This project models those parts and proves what they keep.

`dafny verify dfyconfig.toml` checks everything (Dafny 4.11).

## How it is built

Each module follows one core file of the repository. Three forms recur.

* A **specification function** says what an operation does to a value (`JobQueue.Failure`,
  `Sessions.Refreshed`, `ConnectionPool.Slots.Taken`). A **class** with the source's fields, or a method
  with the source's loop, is proved to do exactly that.
* A **transition system** (`Event`, `Enabled`, `Step`, `Run`) interleaves the operations of any number of
  threads, at the granularity at which the code can really be interrupted. The invariant lemmas are per
  step, and then over every run from the start.
* Where the code does not keep what it promises, the exact step that breaks it is a predicate
  (`Loses`, `Breaks`, `StalePark`, `Outlives`, `Skips`, `ShortensAt`, `Overlaps`, `HalfWritten`, `UnderWay`), the invariant is
  proved to survive a step **if and only if** it is not that step, and a run from the start shows the harm.

| file | what it models |
|---|---|
| `PowersOfTwo.dfy`, `Wrappers.dfy` | helpers |
| `JobModel.dfy`, `Backoff.dfy`, `JobQueue.dfy` | the Redis structures of the job queue, the backoff arithmetic in 64 bits, and the queue class |
| `Fifo.dfy` | first in, first out in every run, and nobody starves; the time a failed job is due |
| `Workers.dfy`, `WorkerLoop.dfy` | the queue as a protocol of worker threads, promoters, an admin, crashes and restarts; the worker's loop as one of its runs |
| `Placement.dfy`, `Whereabouts.dfy`, `ExactlyOnce.dfy` | where a job id can be, where each step takes it, and that a live job is in exactly one place |
| `Outcomes.dfy` | one job's record, lease and parking, each a small machine of its own; how a job ends and that its result is kept |
| `Stranding.dfy` | live jobs that nobody will ever run: what makes one, and what it takes to have two runners |
| `Durability.dfy`, `CancelRace.dfy` | finality of cancellation, with atomic operations and with each read and its write back apart |
| `Drain.dfy` | retry bounds and termination |
| `Promotion.dfy` | the promotion of delayed jobs, command by command, with faults |
| `RateLimit.dfy` | the sliding-window script against the full admission log |
| `Idempotency.dfy` | the lock and replay protocol of Idempotency-Key |
| `ConnectionPool.dfy`, `Retry.dfy` | the pool with its condition variable; retried reads and writes |
| `Migrations.dfy` | concurrent boots under an advisory lock |
| `Consumer.dfy` | the Kafka consumer loop with its poison counter |
| `Sessions.dfy`, `SessionRace.dfy` | refresh sessions, rotation and "log out everywhere"; two refreshes at once |
| `Base64.dfy`, `Tokens.dfy`, `Tags.dfy` | base64url (sections 3.5 and 5 of RFC 4648), link tokens, tag lists and their LIKE clause |

## What the proofs found

Each is a lemma of the table below.

* A multi-type pick that crashes between its BRPOP and its RPUSH loses the job for good, and so does one whose
  RPUSH and compensating RPUSH both fail. Among the atomic steps of the protocol, with leases off, nothing else
  loses or doubles one (`ExactlyOnce.StepKeepsInv`, `Stranding.ALossStrands`). Inside an operation a thread's death
  can lose one too: between the LREM and the ZADD or LPUSH of fail (`src/jobs/Jobs.hpp:343-366`), which is not
  modelled, and between the ZREM and the LPUSH of promotion, which is (`Promotion.ADeathOrphans`).
* A job that one worker failed and another popped still names the first one until the claim. If the second
  worker dies there, its recovery skips the job as foreign, and leaves it to the lease reaper
  (`src/jobs/Jobs.hpp:604-605`); but the second pop has written no lease. Nobody will ever run the job, with leases
  on or off (`Stranding.AForeignJob`, `Stranding.StrandedForGood`).
* A cancel that falls between the GET and the SET of a claim succeeds, and is then overwritten: the job runs. The
  same goes for the GET and SET of fail, of the reaper's fail, of recovery and of set_trace_id, and for nothing else
  (`CancelRace.CancelIsFinalUnlessHalfWritten`).
* Promotion has two uncovered faults and dies badly in one window (`Promotion.StepKeepsInv`). A promoter with an
  old snapshot can push a job early that has been parked again since, and parking a job under a running sweep
  is exactly what makes that possible (`Promotion.StaleParksAreTheCause`).
* A backoff base of 2^34 + 1 ms wraps to a short delay at the 31st attempt, although the shift is said to be
  guarded against overflow (`Backoff.HugeBaseWrapsShort`).
* The Idempotency-Key entry is not read again after the lock is won, so a request can run a second time
  (`Idempotency.AMissedReadMayRunAgain`). The lock's compare-and-delete compares the body hash, which a retry
  shares, so a stale owner does free the retry's lock, against the comment beside it
  (`Idempotency.AStaleOwnerFreesTheRetrysLock`). And where taking the lock faults, the comment says the
  request proceeds; the code answers 409, and so does the model (`src/security/Idempotency.hpp:250-271`).
* An autocommit migration that dies between its statement and its row runs again (`Migrations.HalfDoneRunsAgain`).
* The dead-letter list of a job type called "_all" would share its key with the index set (`JobModel.KeysAreDistinct`);
  no type of that name is assumed.
* A failed seek lets a later success commit over a failure (`Consumer.AFailedSeekLosesTheMessage`).
* With client keys that may hold colons, a request shares its Idempotency-Key entry with another caller's
  exactly if its own key has one (`Idempotency.ColonFreeKeysAreExactlyAlone`). A tag filter with commas matches lists
  it is not in exactly if it is itself a row of tags (`Tags.FiltersExactlyUnlessItIsARow`).
* Instances of two releases that boot together apply migrations in order in every run if and only if their lists
  are compatible (`Migrations.InOrderExactlyForCompatibleLists`).
* Two refreshes with one token that both pass the liveness test before either revokes it are both accepted, and one
  session becomes two (`SessionRace.OneSessionBecomesTwo`). And one that has passed that test before "log out
  everywhere" is still accepted after it; nothing else is (`SessionRace.LogoutEverywhereIsFinalUnlessUnderWay`).
* If session lifetimes vary, a shorter session can take the user's index down with it, and a longer one
  outlives "log out everywhere" (`Sessions.AShorterLifetimeLosesASession`).

## Model

| member | source | states |
|---|---|---|
| JobModel.KeysAreDistinct | src/jobs/Job.hpp:103-143 | no two of the queues, processing lists and dead-letter lists share a Redis key, and a list shares the dead-letter index's key if and only if it is the dead-letter list of a type called "_all" |
| Backoff.DelayIsPromised | src/jobs/Jobs.hpp:958-968 | the delay is the promised min(base * 2^min(k-1, 30), max) if and only if the shift does not overflow or overflows into the cap; it is positive and at most the cap |
| Backoff.DelayIsMonotone | src/jobs/Jobs.hpp:958-968 | with a base below 2^33 ms every delay is the promised one, and later attempts never wait less |
| Backoff.DelaysDouble | src/jobs/Jobs.hpp:958-968 | with such a base the first delay is min(base, max), each of the next thirty is twice the one before up to the cap, and from the 31st attempt on they stay |
| Backoff.HugeBaseWrapsShort | src/jobs/Jobs.hpp:962-967 | a base for which the 31st delay wraps far below the first |
| Backoff.SettersGiveSoundConfigs | src/jobs/Jobs.hpp:82-91 | the setter turns any pair of 64-bit numbers into a working backoff if and only if the base is positive; a lease timeout is kept if and only if its milliseconds fit 64 bits |
| JobQueue.JobQueue.Submit | src/jobs/Jobs.hpp:135-171 | the new blob, its retry budget (the default for a negative one) and its id at the head of its queue, nothing else changed |
| JobQueue.JobQueue.Claim | src/jobs/Jobs.hpp:236-279 | after the pop: a missing or terminal job is dropped from the list and not returned; otherwise it is processing, names the worker, and is leased if leases are on |
| JobQueue.JobQueue.Pick | src/jobs/Jobs.hpp:189-279 | pops the oldest id of the first non-empty queue into the worker's list (atomically for one type) and claims it; for several types, an id that cannot be recorded goes back to its queue, or is dropped if that fails too, and nothing is returned |
| JobQueue.JobQueue.Complete | src/jobs/Jobs.hpp:284-308 | completed with a TTL whatever the status was, and untracked; fails for a missing job |
| JobQueue.JobQueue.Fail | src/jobs/Jobs.hpp:317-380 | ignored for a job that is over; else one more failure, and parked, requeued at once or dead-lettered by budget and backoff |
| JobQueue.JobQueue.DeadLetter | src/jobs/Jobs.hpp:388-413 | dead, in the dead-letter list and index, without TTL, whatever the status was |
| JobQueue.JobQueue.RequeueFromDlq | src/jobs/Jobs.hpp:440-467 | only a dead job: out of list and index, its failures forgotten, back on its queue |
| JobQueue.JobQueue.RecoverProcessing | src/jobs/Jobs.hpp:561-634 | the list is swept id by id under the ownership gate, and the number rescued is returned |
| JobQueue.JobQueue.PromoteDueJobs | src/jobs/Jobs.hpp:642-697 | exactly the due members are swept, in whatever order; live ones go to their queues and are counted |
| JobQueue.JobQueue.ReapExpiredLeases | src/jobs/Jobs.hpp:708-753 | exactly the expired leases are taken and their jobs failed |
| JobQueue.JobQueue.Cancel | src/jobs/Jobs.hpp:772-810 | true exactly for a job that is not over, which is then failed with a TTL and gone from queue, delayed set, processing list and leases |
| Fifo.EarlierIsTakenFirst | src/jobs/Jobs.hpp:135-221 | in every run from the empty queue, leases on or off: when any thread pops the later of two jobs of a type, the earlier one has already been popped or cancelled |
| Fifo.WaitingIsBounded | src/jobs/Jobs.hpp:135-232 | in every run from the empty queue, leases on or off: while a submitted job waits, its queue is popped at most once for each job that waited before it and once for each popped id given back; retried, promoted, recovered and requeued jobs go behind it |
| Fifo.TheFirstTypeIsTaken | src/jobs/Jobs.hpp:207-221 | a pick takes from the first of its types, in their order, that has a job waiting, and from none if and only if all are empty |
| Fifo.RecoveredWaitInOrder | src/jobs/Jobs.hpp:597-626 | recovered jobs of a type wait behind the others, in the order of the list they were in |
| Fifo.PromotedWaitInOrder | src/jobs/Jobs.hpp:653-684 | promoted jobs of a type wait behind the others, in the order of the sweep |
| Fifo.EndsOfTheLists | src/jobs/Jobs.hpp:202-223 | an id moved in one command is the first of the worker's list and one recorded after its pop the last; a job that dies is the first of its dead letters |
| Fifo.SubmissionsKeepTheirOrder | src/jobs/Jobs.hpp:135-158 | the fold of any number of submissions leaves them waiting in the order they were made, behind what waited before, and leaves all other queues as they were |
| Fifo.ABatchComesInOrder | src/jobs/Jobs.hpp:154-221 | a batch submitted to an empty queue is handed, pop by pop, to any distinct threads in the order of its submission |
| Fifo.AReturnUndoesThePop | src/jobs/Jobs.hpp:212-232 | a multi-type pop whose id is put back leaves the queue in the order it had |
| Fifo.FailureParksForThePromisedDelay | src/jobs/Jobs.hpp:352-365 | after its k-th failure a job with attempts left is parked until min(base * 2^min(k-1, 30), max) from now, and joins no queue |
| WorkerLoop.PickIsItsSteps | src/jobs/Jobs.hpp:202-279 | the protocol's pop, record and claim in a row, or its pop and failed record, leave just what the queue's pick leaves |
| WorkerLoop.Settle | src/worker_main.cpp:203-234 | complete, dead_letter or fail follows, by how the handler ended, and fail follows a complete that throws |
| WorkerLoop.Maintain | src/worker_main.cpp:141-144 | the two sweeps at the head of a turn, as steps of the protocol |
| WorkerLoop.PickAndSettle | src/worker_main.cpp:146-234 | one pick and what follows it, as steps of the protocol |
| WorkerLoop.Loop | src/worker_main.cpp:123-244 | the worker loop leaves in the store what its turns say, and is a run of the protocol |
| WorkerLoop.RecoverOnStart | src/worker_main.cpp:297-310 | the start-up sweep is a restart of every thread of the process |
| ExactlyOnce.StepKeepsInv | src/jobs/Jobs.hpp:189-279 | leases off: the invariant behind the next row survives a step of any thread if and only if the step is not a pop that crashes or faults before the id is recorded |
| ExactlyOnce.NothingLostNothingTwice | src/jobs/Jobs.hpp:317-413 | leases off, every legal run: a live job is in exactly one of its queue, the delayed set, the processing lists and a picker's hand; no two threads run one job; dead if and only if once in its dead-letter list if and only if in the index; dead jobs have no TTL; live ones have failures to spare |
| ExactlyOnce.WhereAStepPutsAJob | src/jobs/Jobs.hpp:189-413 | leases off, after every legal run: from the one place that holds a job each step takes it to the one place that the written-out machine names, and to no other |
| ExactlyOnce.RecoveryRescuesItsOwn | src/jobs/Jobs.hpp:601-626 | recovery requeues a live job of its list if and only if the blob names this worker or nobody, and otherwise leaves it in the list |
| Stranding.StrandedForGood | src/jobs/Jobs.hpp:597-607 | a job in no queue, delayed set, lease or hand, whose blob names nobody whose list it is in, stays so and is never handed out, in any continuation, leases on or off |
| Stranding.ForeignIsStranded | src/jobs/Jobs.hpp:597-607 | a live job in a processing list and in no hand is stranded if and only if it names another worker |
| Stranding.OwnersCanStillRunIt | src/jobs/Jobs.hpp:601-626 | leases off: some continuation hands such a job out if and only if it names this worker or nobody |
| Stranding.AForeignJob | src/jobs/Jobs.hpp:604-605 | for every configuration, a run from the empty queue that strands a live job beside two idle threads, with no lease for the reaper to find |
| Stranding.ALossStrands | src/jobs/Jobs.hpp:212-232 | leases off: every lost multi-type pop leaves its job alive, in no list at all and stranded |
| Stranding.ALostPop | src/jobs/Jobs.hpp:212-232 | such a run from the empty queue |
| Stranding.OneRunnerExactlyWithoutLeases | src/jobs/Jobs.hpp:708-733 | for every configuration: in all legal runs no job has two runners at once if and only if leases are off |
| Durability.OnlyRequeueRevives | src/jobs/Jobs.hpp:440-467 | a terminal status is left if and only if a dead job is requeued by an operator; and no step hands out a job that is over |
| Durability.CancelIsFinal | src/jobs/Jobs.hpp:772-810 | with each operation one step: after a successful cancel no later pick returns the job, in any continuation without that requeue, leases on or off; for reads and writes apart see the next rows |
| CancelRace.TogetherTheyAreTheCall | src/jobs/Jobs.hpp:237-279 | for a claim, fail, the reaper's fail, recovery of one id and set_trace_id: the read and the write with nothing between are the whole call, and so is a read that finds nothing to write |
| CancelRace.TheCallsAreTheProtocols | src/jobs/Jobs.hpp:317-380 | those whole calls are the protocol's claim and failure and its sweeps' handling of one id |
| CancelRace.Refines | src/jobs/Jobs.hpp:237-279 | every run of the protocol is a run with its claims in two commands |
| CancelRace.CancelIsFinalUnlessHalfWritten | src/jobs/Jobs.hpp:237-263 | after a successful cancel the job comes alive again in some continuation without a requeue if and only if a thread holds an unwritten live read of it, with an attempt left if it is fail's; without one no later pick returns it |
| CancelRace.HandedExactlyIfHalfWritten | src/jobs/Jobs.hpp:573-623 | and a later pick returns it if and only if there is such a read, as long as no unwritten trace id belongs to a last attempt |
| CancelRace.StepIsPaired | src/jobs/Jobs.hpp:886-894 | a thread with an unwritten read stays where it made the call until it writes or dies, and unless it is for a trace id what it read was live and, for recovery, its own |
| CancelRace.TheCancelIsOverwritten | src/jobs/Jobs.hpp:237-263 | GET, cancel, SET: the cancel has succeeded, its TTL is gone, and the job runs |
| CancelRace.ACancelIsLost | src/jobs/Jobs.hpp:237-263 | from the empty queue such a state is reached, for every configuration |
| Durability.OnlyItsRunnerEnds | src/jobs/Jobs.hpp:612-626 | only its own runner, a cancel or the lease reaper ends a live job or lets it expire |
| Outcomes.EachJobIsItsOwnMachine | src/jobs/Jobs.hpp:135-467 | leases on or off, for every step: what becomes of a job's whole record is a written-out function of that record, of what the thread holds, and of whether the id is in the list that is recovered |
| Outcomes.EachLeaseIsItsOwnMachine | src/jobs/Jobs.hpp:265-277 | for every step: a lease is granted by the claim for the timeout from then, and ends with the run, with a cancel or by being reaped, and by nothing else |
| Outcomes.EachParkingIsItsOwnMachine | src/jobs/Jobs.hpp:352-366 | for every step: a job is parked by a failure with an attempt left, for the delay of that attempt, and taken out by a cancel or a promotion, and by nothing else |
| Outcomes.HowAStatusIsReached | src/jobs/Jobs.hpp:284-413 | for every status, the steps that bring a job to it, if and only if: completed by its runner's success, failed by the cancel of a live job, dead by a permanent failure or the last failure allowed, processing by the claim of a live job, pending by submission, retry, requeue or recovery |
| Outcomes.ASuccessIsKept | src/jobs/Jobs.hpp:284-308 | leases off, after every legal run: the success of a live job's runner leaves the old record completed, with that result and a TTL, the id in no list, parking or lease; and the record stays so in every legal continuation until it expires |
| Outcomes.ACompletedJobDidSucceed | src/jobs/Jobs.hpp:284-308 | in every run, leases on or off, a completed job has the result with which a runner of it did end |
| Outcomes.ACancelledJobWaitsNowhere | src/jobs/Jobs.hpp:772-810 | leases off, after every legal run: a cancel takes the id out of its queue, the delayed set and its runner's list, and leaves it exactly where it is popped and not yet claimed |
| Outcomes.NoReapBeforeTheTimeout | src/jobs/Jobs.hpp:265-277 | after a claim at `now` and until the next one, a reaper takes the job if and only if its lease is still there and the clock is at or past now + the timeout |
| Outcomes.NoPromotionBeforeTheBackoff | src/jobs/Jobs.hpp:352-365 | after the k-th failure at `now` and until the next one, a sweep takes the job if and only if it is still parked and the clock is at or past now + min(base * 2^min(k-1, 30), max) |
| Outcomes.RescuedAreCounted | src/jobs/Jobs.hpp:597-633 | recovery counts the live jobs of the list that name this worker or nobody |
| Outcomes.PushedAreCounted | src/jobs/Jobs.hpp:653-697 | promotion counts the live jobs it takes out of the delayed set |
| Outcomes.ReapedAreCounted | src/jobs/Jobs.hpp:716-753 | the reaper counts the leases taken whose job has a record |
| Drain.StepSpends | src/jobs/Jobs.hpp:340-379 | outside the operator's requeue the failures that a job has left go down by exactly one with each failure, by its handler or by the lease reaper, and otherwise only to none, by a cancel, success, permanent failure or expiry |
| Drain.SubmittedJobFailsAtMost | src/jobs/Jobs.hpp:352-379 | in every run a job fails at most max(1, max_retries) times before an operator requeues it, leases that run out included and the default budget for a negative one; it is over after that many, and while nothing else ends it alive if and only if it has failed less often |
| Drain.StepAdvances | src/jobs/Jobs.hpp:340-379 | every productive step of always-failing jobs brings one job nearer to its end and none further |
| Drain.SomethingToDo | src/jobs/Jobs.hpp:642-697 | while a job is live and a thread is up, some productive step is possible |
| Drain.AlwaysFailingJobsDie | src/worker_main.cpp:135-234 | a run of pick, fail and promote is no longer than the work left at its start, and one that cannot go on has left every job dead |
| Drain.AFailingBatchDies | src/jobs/Jobs.hpp:317-380 | n jobs of budget m from an empty queue: at most n * (5 * max(1, m) + 3) productive steps, and then all n are dead |
| Promotion.StepKeepsInv | src/jobs/Jobs.hpp:657-695 | any number of promoters, command by command, any command faulting and any promoter dying: each live job stays in one spot if and only if the step is not one of two faults in the catch block or the death of a promoter that has taken a live job out |
| Promotion.EachParkingIsPushedOnce | src/jobs/Jobs.hpp:659-684 | in every such run a parked id is pushed at most once per parking, is never nowhere, never in two spots and never in two promoters' hands |
| Promotion.DueJobsArePushed | src/jobs/Jobs.hpp:646-684 | a sweep sees a parked job if and only if its time has come, and without faults it moves it from the delayed set to the end of the queue |
| Promotion.PromotedOnceAndOnTime | src/jobs/Jobs.hpp:645-655 | and is never pushed before the time it was parked until, if no job is parked again while a running sweep has it in its snapshot or in hand |
| Promotion.StaleParksAreTheCause | src/jobs/Jobs.hpp:645-661 | while all is on time, a step makes an early push possible, with no further such parking and nothing broken, if and only if it parks a job that a running sweep has in its snapshot or in hand |
| Promotion.PunctualUntilAStalePark | src/jobs/Jobs.hpp:645-661 | the same of every run from the start that has been prompt so far |
| Promotion.AFaultyUndoOrphans | src/jobs/Jobs.hpp:685-694 | a run in which the GET and then the compensating ZADD fault, and the live job is nowhere |
| Promotion.ADeathOrphans | src/jobs/Jobs.hpp:661-683 | a run in which a promoter dies after its ZREM, and the live job is nowhere |
| Promotion.FaultDuplicates | src/jobs/Jobs.hpp:685-694 | a run in which a faulting ZREM on an id already promoted doubles it |
| Promotion.StaleSnapshotPushesEarly | src/jobs/Jobs.hpp:646-661 | a run without faults in which an old snapshot pushes a re-parked job early |
| RateLimit.Limiter.constructor | src/security/RateLimit.hpp:227-235 | a limiter starts with at least one request and one second, as the configuration is clamped |
| RateLimit.Limiter.Eval | src/security/RateLimit.hpp:97-115 | the script's commands on the sorted set and its TTL, and its reply |
| RateLimit.Limiter.CheckWindow | src/security/RateLimit.hpp:139-184 | the decision, the remaining count and the wait are those the full admission history calls for: admitted if and only if the window has room, and remaining is the room left in the window after the request |
| RateLimit.KeptIsRecent | src/security/RateLimit.hpp:102-114 | the trimmed set is the history of the current window; its TTL of window + 1000 never drops a younger entry |
| RateLimit.ScriptFollowsLog | src/security/RateLimit.hpp:101-115 | script and full history give the same reply, and go on doing so |
| RateLimit.NoWindowOverflows | src/security/RateLimit.hpp:86-89 | in every run with a clock that does not go back, every half-open window holds at most limit admissions |
| RateLimit.RetryTimeIsExact | src/security/RateLimit.hpp:105-112 | a denial means a full window; with no other traffic a request is admitted if and only if it comes at or after the announced time; whole seconds suffice |
| RateLimit.TheClientIsToldTheTruth | src/security/RateLimit.hpp:172-180 | remaining is the limit less the admissions of the window with this request in it, and the seconds told on a denial are the least whole ones after which, without other traffic, a request is admitted |
| Idempotency.Cache.PreHandle | src/security/Idempotency.hpp:204-279 | one request's read, lock and second read, any of them faulting, with another request finishing before the second read, are the protocol's steps, and its answer is the state they leave |
| Idempotency.TheSecondReadAnswers | src/security/Idempotency.hpp:259-270 | a request that finds the lock taken by a handler that stores its response just then is answered from it, or refused for another body |
| Idempotency.EveryAnswer | src/security/Idempotency.hpp:237-278 | for every state of entry and lock and every fault of the three commands: replayed, conflicting, let in or told that another is in progress |
| Idempotency.Cache.PostHandle | src/security/Idempotency.hpp:286-379 | storing what may be stored and then compare-and-delete, on every path and with either faulting, are the protocol's steps |
| Idempotency.KeptExactlyIfASmallSuccess | src/security/Idempotency.hpp:336-374 | where no entry was live: after a response is left without faults, a later request of the key is answered from it, or refused for another body, if and only if its status is 200 to 299, its body is within the cap and the entry's lifetime has not passed; any other response leaves all entries as they were |
| Idempotency.ALiveLockStays | src/security/Idempotency.hpp:310-334 | a live lock goes if and only if a request with its key and body hash releases it, and is never replaced |
| Idempotency.StepKeepsLocks | src/security/Idempotency.hpp:244-271 | under any interleaving, faults and deaths, every request inside has its own live lock, until and only until time passes the deadline of one that is still inside |
| Idempotency.OneInside | src/security/Idempotency.hpp:244-278 | while no handler outlives its lock, at most one request per key is inside |
| Idempotency.OutlivingIsWhatLetsTwoIn | src/security/Idempotency.hpp:244-278 | while every request inside holds its lock, a step makes it possible that two of one key are inside, with no further handler outliving its lock, if and only if it is time passing the lock deadline of a request inside |
| Idempotency.ReplaysAreGenuine | src/security/Idempotency.hpp:237-270 | in every run whatsoever, a replayed response is what a handler answered to the same key and body hash, and was cacheable |
| Idempotency.AnEntrySettlesTheRequest | src/security/Idempotency.hpp:237-242 | a request whose first read finds a live entry is answered from it or refused, and never reaches the handler later |
| Idempotency.SuccessesAreApart | src/security/Idempotency.hpp:237-278 | a stored execution began a full entry lifetime after all earlier ones of its key if and only if no entry was live as it won the lock |
| Idempotency.AMissedReadMayRunAgain | src/security/Idempotency.hpp:237-278 | for every key, body and cacheable response, a run that executes twice beside a live entry |
| Idempotency.AStaleOwnerFreesTheRetrysLock | src/security/Idempotency.hpp:310-334 | a run in which a handler that outlived its lock lets a third request in beside the retry |
| Idempotency.LocksAreNotEntries | src/security/Idempotency.hpp:61-76 | a cache key is some lock's key if and only if the client key ends in ":lock" or is "lock"; different entries have different locks |
| Idempotency.EntriesAreSeparate | src/security/Idempotency.hpp:61-72 | with client keys free of colons, equal cache keys mean the same caller, method, path hash and key; the next row says that the keys must be |
| Idempotency.ColonFreeKeysAreExactlyAlone | src/security/Idempotency.hpp:61-72 | for a method and path hash free of colons, no other caller, route or colon-free key shares the cache key if and only if the client key has no colon |
| ConnectionPool.Pool.TryAcquire | src/database/Database.hpp:262-286 | proceeds exactly when the wait's condition holds, with the oldest idle connection or a reserved slot |
| ConnectionPool.Pool.ConnectFailed | src/database/Database.hpp:291-296 | gives the reserved slot back |
| ConnectionPool.Pool.Release | src/database/Database.hpp:309-320 | an open connection goes to the back of the queue, a broken one is dropped, and the slot is free either way |
| ConnectionPool.ABrokenConnectionIsGone | src/database/Database.hpp:312-316 | in every run a connection released broken is never queued and never held again |
| ConnectionPool.AnOpenConnectionWaitsForAThread | src/database/Database.hpp:275-313 | in every run one released open joins the end of the queue and stays queued until a thread that asks for one gets it from the front |
| ConnectionPool.BrokenConnectionsAreReplaced | src/database/Database.hpp:283-316 | in every run the connections opened so far and under way are those idle, the slots in use and the ones released broken, all counted; so no more are opened after the start than broke |
| ConnectionPool.OpenConnectionsAreReused | src/database/Database.hpp:275-313 | in every run in which each release is of an open connection none is opened after the start and nobody goes to open one |
| ConnectionPool.CanProceedMeansAFreeSlot | src/database/Database.hpp:265-268 | the two-part condition is one comparison: fewer busy threads than slots |
| ConnectionPool.RunKeepsInv | src/database/Database.hpp:262-320 | under every interleaving with unlocked connects that succeed or fail, wake-ups, timeouts and broken connections: the counter counts the busy threads, idle and busy never exceed the size, no connection is in two places, and while anyone sleeps there are as many woken threads as free slots |
| ConnectionPool.NoUnderflow | src/database/Database.hpp:293-318 | every decrement finds the counter positive |
| ConnectionPool.TheNextAcquireProceeds | src/database/Database.hpp:252-274 | an acquire waits if and only if every slot is in use, so a released pool serves whatever has broken |
| ConnectionPool.FreeingNotifies | src/database/Database.hpp:291-319 | every step that makes the pool able to proceed wakes a sleeper if there is one |
| ConnectionPool.NobodyIsLeftAsleep | src/database/Database.hpp:270-281 | beside a sleeper and a free slot there is a woken thread that takes it |
| ConnectionPool.NoSharing | src/database/Database.hpp:276-281 | a held connection is held by one thread and is not in the queue |
| Retry.Run | src/utils/Retry.hpp:104-131 | how many attempts are made, which failure is thrown, and the state that the landed attempts leave |
| Retry.CountIs | src/utils/Retry.hpp:106-130 | that number, told without the loop: each attempt but the last failed, was transient and had another one left |
| Retry.AttemptsAreBounded | src/utils/Retry.hpp:111-112 | at most max(1, max_attempts) attempts |
| Retry.WritesReturnIf | src/utils/Retry.hpp:173-186 | execute_write returns normally if and only if an attempt within the limit commits after nothing but the SQL states 40001 and 40P01 |
| Retry.ReadsReturnIf | src/utils/Retry.hpp:146-159 | reads and writes declared idempotent return normally if and only if an attempt within the limit commits after nothing but broken connections and the SQL states of class 08, 40001, 40P01 and 57P |
| Retry.WritesLandAtMostOnce | src/database/Database.hpp:486-498 | for every sequence of outcomes a write lands at most once, exactly once if it returns, and otherwise if and only if the failure thrown had landed |
| Retry.LiberalRetryMayLandTwice | src/utils/Retry.hpp:161-186 | with the read classifier a write may land twice |
| Retry.IdempotentIsExactlyWhatItTakes | src/database/Database.hpp:500-511 | execute_write_idempotent always ends where one execution ends if and only if the effect is idempotent |
| Retry.IdempotentWritesEndInOneOfTwoStates | src/database/Database.hpp:500-511 | for such an effect every run, returning or throwing, leaves the old state or the new one |
| Retry.Manager.PickReplica | src/database/Database.hpp:609-616 | round robin over a 64-bit counter that wraps |
| Retry.Manager.ExecuteRead | src/database/Database.hpp:569-594 | the replica whose turn it is comes first and the counter moves on; the primary gets its full budget if and only if that one failed; the read returns if and only if one of the two answers |
| Retry.RoundRobinIsFair | src/database/Database.hpp:609-616 | any n reads in a row use each of n replicas once, until the counter wraps |
| Retry.DelaysGrowToTheCap | src/utils/Retry.hpp:78-83 | delays before jitter never shrink and never exceed the cap |
| Retry.WhatMayBeDrawn | src/utils/Retry.hpp:78-92 | a wait may be drawn if and only if it is at most one millisecond, or at most the cap and at most base * 2^min(k, 10) |
| Retry.WaitsAreBounded | src/utils/Retry.hpp:78-92 | whatever jitter draws, all waits of one call together are at most (max(1, max_attempts) - 1) * max(1, max_delay) |
| Retry.ShiftDoesNotOverflow | src/utils/Retry.hpp:81-83 | a 32-bit base shifted by at most ten fits its 64 bits |
| Migrations.StepKeepsInv | src/database/Migrations.hpp:159-182 | whatever files each instance has, the invariant behind the next rows survives a step of any instance if and only if the step is not the death of an autocommit migration between its statement and its row |
| Migrations.AppliedOnce | src/database/Migrations.hpp:206-244 | whatever files each instance has, in every reachable state at most one file of a version has been applied, none of a version recorded before, and an instance that has finished finds all its versions recorded |
| Migrations.InOrderExactlyForCompatibleLists | src/database/Migrations.hpp:123-125 | with each list sorted, versions are applied in increasing order in every run if and only if an instance that has a version to apply has every smaller one that another has to apply |
| Migrations.AnyBootsAreAsOne | src/database/Migrations.hpp:202-244 | with one list, as soon as one of any number of instances has finished, exactly what a single boot would have applied has been applied, once each and in the same order, and every file is recorded |
| Migrations.EveryFileRunsIfVersionsDiffer | src/database/Migrations.hpp:123-125 | a boot runs every unrecorded file if and only if their versions differ |
| Migrations.HalfDoneRunsAgain | src/database/Migrations.hpp:165-172 | a crash there runs the statement twice |
| Migrations.Database.Apply | src/database/Migrations.hpp:226-235 | under the lock: run and recorded exactly if not yet recorded |
| Migrations.Database.Initialize | src/database/Migrations.hpp:202-244 | the boot loop applies the pending files in order, records every version and counts both kinds |
| Consumer.KafkaConsumer.Handle | src/messaging/Messaging.hpp:253-312 | one message's commit, poison count, give-up or seek |
| Consumer.KafkaConsumer.StartConsuming | src/messaging/Messaging.hpp:246-315 | the loop is a run of such messages, timeouts doing nothing |
| Consumer.StepKeepsInv | src/messaging/Messaging.hpp:267-311 | every message before the position is resolved, and this survives a step if and only if the step is not a failed seek, after a failure that is not the fifth in a row, on a message that nothing had resolved before |
| Consumer.CommittedIsResolved | src/messaging/Messaging.hpp:267-299 | whatever callbacks, commits and restarts do, the committed offset has passed only messages that succeeded once or failed five times in a row |
| Consumer.ACommitPassesTheMessage | src/messaging/Messaging.hpp:267-311 | in every run, whatever seeks and commits failed before: a delivery moves the committed offset if and only if its commit works and it is a success or the fifth failure in a row, then to the offset after the message, where a restart resumes; a failure before that with a working seek is fetched again |
| Consumer.BetweenRestarts | src/messaging/Messaging.hpp:282-311 | from one restart to the next messages come in order from the committed one on, each at most five times, so a poison message delays the rest by no more |
| Consumer.AFailedSeekLosesTheMessage | src/messaging/Messaging.hpp:300-310 | after a failed seek the next success commits over the failure |
| Sessions.SessionStore.Record | src/security/SessionStore.hpp:43-60 | the marker, and the id in its owner's index with a renewed lifetime |
| Sessions.SessionStore.IsLive | src/security/SessionStore.hpp:62-70 | live exactly while the marker has not expired |
| Sessions.SessionStore.RevokeJti | src/security/SessionStore.hpp:77-91 | the marker is gone, and the id is out of its owner's index unless the marker names no owner |
| Sessions.SessionStore.RevokeAll | src/security/SessionStore.hpp:101-118 | every marker the index names is gone, and the index too |
| Sessions.SessionStore.Refresh | src/api/AuthController.hpp:244-269 | refused if not live; otherwise the old id is revoked, and a new one recorded and the request accepted if the user exists and the new marker can be written |
| Sessions.StepKeepsInv | src/security/SessionStore.hpp:43-60 | every live marker is in its owner's index, which lasts as long, until and only until a new session shortens the index below a live one |
| Sessions.EverywhereIsEverywhere | src/security/SessionStore.hpp:101-118 | with each handler one step and one lifetime: revoke_all leaves no session of the user alive and all others as they were |
| Sessions.LogoutEverywhereIsFinal | src/security/SessionStore.hpp:101-118 | with each handler one step and one lifetime: after it, no token minted for the user before is accepted in any continuation; for handlers in three calls see the rows of SessionRace |
| Sessions.EachTokenRefreshesOnce | src/api/AuthController.hpp:244-261 | with each handler one step: in every run, whatever the lifetimes, /refresh accepts each token at most once; for handlers in three calls see the next rows |
| SessionRace.TogetherTheyAreTheRefresh | src/api/AuthController.hpp:244-269 | the calls of one request with nothing between are the handler |
| SessionRace.StepKeepsInv | src/api/AuthController.hpp:244-261 | at most one request is at work on a token, and none on one that was accepted, until and only until a second request finds a token live that a first has found live and not revoked yet |
| SessionRace.AcceptedOnceWithoutOverlap | src/api/AuthController.hpp:244-261 | in every run from the start without such an overlap each token is accepted at most once |
| SessionRace.AnOverlapIsExactlyWhatDoubles | src/api/AuthController.hpp:244-261 | a step makes it possible for a token to be accepted twice, without a further overlap, if and only if it is an overlap |
| SessionRace.OneSessionBecomesTwo | src/api/AuthController.hpp:244-261 | a run with one login and two requests, after which two sessions are live |
| SessionRace.EverywhereLastsUnlessUnderWay | src/security/SessionStore.hpp:101-118 | with one lifetime: right after "log out everywhere" the user has no live session, and one comes back in some continuation without a new login if and only if a refresh with one of the user's tokens is under way |
| SessionRace.LogoutEverywhereIsFinalUnlessUnderWay | src/api/AuthController.hpp:244-261 | with one lifetime: after it some continuation accepts a token minted for the user before if and only if a refresh with one of the user's tokens is under way |
| SessionRace.ARefreshOutlivesLogoutEverywhere | src/api/AuthController.hpp:244-261 | such a run: the token is accepted after the logout, and a new session is live |
| Sessions.RefreshGivesOneForOne | src/api/AuthController.hpp:259-261 | nobody's number of live sessions grows, and an accepted refresh swaps the old id for the new one |
| Sessions.ASessionLivesItsLifetime | src/security/SessionStore.hpp:43-70 | in every run a session begun by a login or a refresh is live, and its token accepted, exactly until its lifetime has passed, unless it is refreshed or logged out before |
| Sessions.RevokingUnindexes | src/security/SessionStore.hpp:77-91 | revoking takes the id out of its owner's index and out of no other, and out of none if the marker names nobody or "1" |
| Sessions.AShorterLifetimeLosesASession | src/security/SessionStore.hpp:53-58 | a run with two lifetimes after which a session survives revoke_all |
| Base64.AlphabetIsBijective | src/utils/Base64.hpp:21-47 | the alphabet and the decoding table undo each other, and hold no ignored character and no dot |
| Base64.DigitsAreOfTheAlphabet | src/utils/Base64.hpp:21 | the digits in the order of the alphabet of section 5 of RFC 4648, written out |
| Base64.ThreeBytesAreFourCharacters | src/utils/Base64.hpp:20-37 | three bytes in front make four characters, by the arithmetic of section 4 of RFC 4648 |
| Base64.TheLastBytes | src/utils/Base64.hpp:33-36 | one or two bytes at the end make two or three |
| Base64.EncodedIsUrlSafe | src/utils/Base64.hpp:20-37 | encoded text holds letters, digits, '-' and '_' alone |
| Base64.ShiftIn | src/utils/Base64.hpp:27-61 | shifting into the 32-bit register that wraps keeps its low bits right |
| Base64.TakeOut | src/utils/Base64.hpp:31-65 | shifting down and masking reads the first of the bits held, and the rest stay |
| Base64.UrlEncode | src/utils/Base64.hpp:20-37 | for every byte string, the text of its bits in groups of six, the last filled up with zeros |
| Base64.UrlDecode | src/utils/Base64.hpp:39-78 | for every text, its bytes or the first error in the code's order: character, length, padding bits |
| Base64.DecodesExactlyTheCanonicalText | src/utils/Base64.hpp:68-76 | a text decodes to x if and only if, without the ignored characters, it is what x encodes to |
| Base64.RoundTrip | src/utils/Base64.hpp:20-78 | decoding undoes encoding, and no encoded text holds a dot |
| Base64.DecodingIsInjective | src/utils/Base64.hpp:68-76 | accepted texts without '=', CR and LF that mean the same bytes are equal, and are what those bytes encode to |
| Tokens.PurposesAreDistinct | src/security/Tokens.hpp:53-67 | no two purposes share a string |
| Tokens.Issue | src/security/Tokens.hpp:92-117 | the signed text of the standard claims overridden by the extra ones, or the error |
| Tokens.Verify | src/security/Tokens.hpp:132-213 | the checks in the code's order, and every claim but the reserved four given back |
| Tokens.SplitsWhereItWasJoined | src/security/Tokens.hpp:139-145 | the first dot of a token is the one it was joined with |
| Tokens.IssuedIsRead | src/security/Tokens.hpp:71-77 | a token issued under one secret and purpose and verified under others passes the signature test if and only if the two twice-keyed hashes of its payload are equal, and then the claims decide; the token and the keys are written out |
| Tokens.TheSecretAndThePurposeDecide | src/security/Tokens.hpp:71-77 | with a keyed hash that never collides it passes if and only if the secret and the purpose are the ones it was issued under |
| Tokens.IssuedTokenVerifiesUntilItExpires | src/security/Tokens.hpp:132-213 | with extra claims that avoid the reserved four, verification for the same purpose succeeds exactly until exp and gives back subject and extras; with others it never gives them all back |
| Tokens.OtherPurposesAreRefused | src/security/Tokens.hpp:172-177 | for any other purpose it fails, even if the keyed hashes collide |
| Tokens.AnExtraPurposeWins | src/security/Tokens.hpp:108-111 | an extra "purpose" claim replaces the standard one, and then only the keys separate two purposes |
| Tokens.AcceptedTokensAreCanonical | src/security/Tokens.hpp:144-162 | an accepted token without '=', CR and LF is exactly what signing its payload text gives |
| Tags.TrimBlanks | src/domain/Post.hpp:33-36 | a text without the blanks and tabs at its two ends |
| Tags.OnlyBlanksGo | src/domain/Post.hpp:33-36 | a text is blanks, what trimming leaves of it, and blanks |
| Tags.SplitTags | src/domain/Post.hpp:26-42 | the trimmed, non-empty parts between the commas, in order |
| Tags.JoinTags | src/domain/Post.hpp:44-52 | the tags with a comma before each that comes after something |
| Tags.SplitUndoesJoin | src/domain/Post.hpp:23-52 | splitting what was joined gives the list back if and only if every tag is clean |
| Tags.SplitIsStable | src/domain/Post.hpp:26-52 | what is read from any column text survives being stored again |
| Tags.EscapeLike | src/repositories/PostRepository.hpp:145-154 | the three metacharacters, each behind a backslash |
| Tags.EscapedIsLiteral | src/repositories/PostRepository.hpp:144-154 | as a LIKE pattern the escaped text matches exactly the text |
| Tags.OneCharacter | src/repositories/PostRepository.hpp:145-154 | what one character means as a pattern, and that the escape stands in front of exactly those that do not stand for themselves: percent sign, underscore, backslash |
| Tags.ClauseAgreesWithTheList | src/repositories/PostRepository.hpp:168-169 | for a non-empty tag without a comma the clause holds if and only if the tag is in the list |
| Tags.CommaFilterFindsNeighbours | src/repositories/PostRepository.hpp:185-186 | a filter with a comma in it matches lists it is not in |
| Tags.FiltersExactlyUnlessItIsARow | src/repositories/PostRepository.hpp:168-169 | a non-empty filter finds exactly the lists it is in, for all lists that can be stored, if and only if it is not clean tags with commas between them |
| Tags.ValidateTags | src/api/PostsController.hpp:246-275 | the trimmed tags before the first bad element, and what is wrong with it |
| Tags.AcceptedIsClean | src/api/PostsController.hpp:246-275 | no problem if and only if no element is bad, and then the tags are exactly the non-blank elements, trimmed |
| Tags.TheFirstWrongElementDecides | src/api/PostsController.hpp:246-275 | the tags are the trimmed texts before the first element that is no text, longer than 40 when trimmed, or holds a comma or line break, blank ones left out and in their order, and the problem is that element's |
| Tags.AcceptedTagsAreStorable | src/api/PostsController.hpp:246-275 | every list validation lets through comes back unchanged from storage, and every tag in it is found by the clause |

## Left out

* Jobs: the payload, trace ids and timestamps of a blob; the paging indexes and `list_paged`; depth gauges; `set_trace_id`; blobs that do not parse.
* Jobs: faults inside operations other than pick's record and, command by command, promotion. Each other operation is one atomic step.
* Jobs: waiting time; a pop on empty queues is a step that changes nothing. Numbers are unbounded except in the backoff arithmetic.
* Worker loop: the pause after an error, and the thread pool around it.
* ExactlyOnce.StepKeepsInv: a thread dies between the protocol's steps, not between two commands inside fail, recovery, requeue or promotion. Promotion alone is modelled command by command, in `Promotion`.
* ExactlyOnce.NothingLostNothingTwice: is for leases off, and a stranded job counts as kept: it is in a processing list. `Stranding` says which jobs are, and what that means. With leases on two threads can run one job (`Stranding.OneRunnerExactlyWithoutLeases`); `Durability`, `CancelRace` and the retry bound hold with leases too.
* Outcomes.ASuccessIsKept: is for leases off. With leases on a second runner of the job can write over the record; `Outcomes.EachJobIsItsOwnMachine` says which steps do.
* Durability.CancelIsFinal: takes each operation for one step. `CancelRace` cuts those that write back a live record in two; the commands inside cancel itself, and those after the write, stay together. complete and dead_letter write a terminal record and stay whole.
* CancelRace.HandedExactlyIfHalfWritten: leaves out an unwritten trace id of a job on its last attempt: the record is then alive again, but whether a pick returns it hangs on other copies of the id, which leases allow.
* JobQueue.JobQueue.PromoteDueJobs: a sweep without faults. The catch block that parks an id again is in `Promotion`.
* JobQueue.JobQueue.ReapExpiredLeases: a sweep without faults. The branch that restores a lease after fail has thrown is not modelled.
* WorkerLoop.Settle: a complete whose SETEX throws although it has landed is not modelled; the job is then completed and only untracked.
* Promotion: the operator's requeue and the lease reaper are not events there; workers are reduced to take, park, return and finish. A command that faults has had no effect.
* Rate limiter: the whitelist, the off switch and the fail-open and fail-closed fallbacks; the member strings, which are taken to be unique.
* Idempotency: the choice of the principal, bodies over the size limit, methods that do not mutate, corrupt entries, and which headers are replayed. A store that is not initialized passes every request on.
* Idempotency: entries and locks are kept in two maps; the lemma about their names says when that is right.
* Connection pool: the shutdown drain, and failures to open the first connections. A woken thread that times out looks at the pool once more, as the library's wait does.
* Retry: how jitter draws; only its range is modelled.
* Migrations.AnyBootsAreAsOne: is for one list shared by all. `AppliedOnce` and `InOrderExactlyForCompatibleLists` are for any lists.
* Migrations: the parsing of file names and of the no-transaction marker; a failing statement is a rollback or, for a boot that gives up, a crash.
* Kafka: one partition, whose offsets are consecutive. With several, the poison counter is keyed by offset alone and interleaving may reset it.
* Sessions: Redis faults other than that of the new marker, the access token, and the signature and expiry of the refresh token, which is taken to be verified.
* Sessions.EachTokenRefreshesOnce: takes each handler for one step, as do the next two. `SessionRace` cuts /refresh into is_live, revoke_jti and record, each of which is one step, as are login, logout and "log out everywhere".
* Sessions.EverywhereIsEverywhere: takes each handler for one step; see `SessionRace.EverywhereLastsUnlessUnderWay`.
* Sessions.LogoutEverywhereIsFinal: takes each handler for one step; see `SessionRace.LogoutEverywhereIsFinalUnlessUnderWay`.
* Tokens: HMAC is any function; JSON is any encoding that reads back what it wrote; the width of exp.
* Tags: SQL quoting around the escaped text, and collations. LIKE is the SQL operator with its default escape character.
* HTTP controllers, pages, uploads, mail, webhooks, metrics, tracing, configuration and start-up order: plumbing around these protocols.
