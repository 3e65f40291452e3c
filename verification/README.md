# TaskQueue: the lease protocol, its waits and its scopes, in Dafny

TaskQueue is an asyncio job queue. Workers lease jobs from Redis with a two-step claim, a reaper
returns the leases of dead workers, consumers wait for results over one shared pub/sub connection,
and a `JobGroup` scope owns the jobs it spawned. This project models that code and proves what every
run of it keeps. `dafny verify dfyconfig.toml` checks the whole project.

| file | models |
|---|---|
| `Records.dfy`, `Store.dfy` | a job record; the shared Redis structures; every script as a function |
| `Scripts.dfy` | the eight Lua scripts and the transactions as methods that update those structures in place |
| `Reaper.dfy`, `Places.dfy` | what reap does as a whole; where a job id can be |
| `Protocol.dfy`, `Invariant.dfy`, `Guarantees.dfy` | producers, pools, reapers, consumers, crashes, lost replies, cancelled calls, expiry and time as one step relation; its invariant; the theorems |
| `Retention.dfy` | what stored structures keep through a run: payloads, statuses, results until they expire, beats |
| `Liveness.dfy` | heartbeat timing with real instants and whole-second clocks |
| `Driving.dfy`, `Interleaving.dfy` | the acts of a claim and of a delivery; what they amount to when anything else happens in between |
| `Worker.dfy` | the worker's own code, from entering the pool to leaving it, with everybody else running at every await |
| `Waits.dfy`, `Notifier.dfy` | `take_result` and `wait_cancel` over the shared notifier, and the notifier's own code |
| `Wakeups.dfy` | the lease protocol and the waits as one machine |
| `Scope.dfy`, `JobGroup.dfy` | a scope under every order of completions and callbacks, and the group's own code |
| `Memory.dfy`, `Agreement.dfy` | `MemoryBackend`, and its agreement with Redis |
| `Codec.dfy`, `Children.dfy`, `Handle.dfy` | the record codec; derived child ids; the shared handle |

## Assumptions about the environment

- Fail-stop is a timing guard: the clock moves only while every pool that is up has a beat younger
  than the worker TTL. `Liveness.GuardIsFailStop` shows that this guard says exactly that no such pool
  could be reaped, and `Liveness.PunctualPoolsLetTheClockMove` derives it from beats at most two accepted
  intervals apart. `Guarantees.FailStopIsNeeded` shows what happens without it.
- Each script or transaction is one atomic step. A call that errors or is cancelled may or may not have
  taken effect; both are steps. A finished call has taken effect or never will.
- One incarnation per id: a taken or expired id is not enqueued again. The interface promises results to
  a single consumer only (src/TaskQueue/backends/interface.py:79) and is silent on reuse;
  `Guarantees.OneIncarnationIsNeeded` shows why reuse must be ruled out.
- One worker pool per backend instance, one worker TTL for the fleet, and distinct instance ids.
- A subscription is in effect when `subscribe` returns. The cleanup inside `leave` counts as part of it,
  although the shield lets its caller move on first.
- A scope's children are spawned before its body ends. Callbacks run in the order they were scheduled,
  and `gather` accounts for already finished tasks at once, as Python 3.12 and later do.

## What the proofs found

- The claim script and reap do not look for a terminal status. Under the assumptions above they never
  meet one; without fail-stop a completed job goes back to RUNNING.
- A heartbeat interval that `check_liveness` accepts protects a worker whose beats are up to two
  intervals apart exactly when the worker TTL is at least 3 seconds (`Liveness.SafeIffAtLeastThree`).
- `save` replaces the record in `MemoryBackend` and merges fields in Redis. The two agree exactly when
  the new record covers every optional field of the stored one. A FAILED retry after a COMPLETED save
  whose reply was lost keeps the old result in Redis and drops it in memory.
- A scope in the default mode can leave a cancel fan-out task running: `_settle` gathers the fan-out that
  exists when it starts, but a waiter can still fail while it is being settled, since `leave` swallows
  the cancellation. `Scopes.FanoutOutlivesSettleIffRisky` gives the exact condition.
- A child that fails after the join was woken and before it resumes is missing from the raised group,
  although it failed inside the scope. `Scopes.GroupIsCompleteIffNonePending` says exactly when a raised
  group is complete; after a drain it always is.
- The backstop fan-out in `cancel_siblings_mode` is never needed (`Scopes.BackstopNeverFires`).
- A default-mode scope exits with ValueError exactly when it has jobs and all of them were spawned before
  entry, because `asyncio.wait` refuses an empty set (`Scopes.EmptyWaitNeedsOutsideJobs`).
- A `subscribe` that fails for the only watcher leaves an open connection with no reader and no watcher, and
  nothing else does (`Waits.OpenWhileIdleNeedsAFailedJoin`). A reader that
  died is replaced only after the last watcher leaves; until then only the poll wakes anyone.
- A body that ends in CancelledError of its own accord is taken for a shutdown: its lease is released and the
  loop that ran it ends, so each redelivery can cost the pool one loop (`Workers.Worker.Turn`, `Driving.RunCutShort`).
- A claim that raised after its script took effect puts the job back without resetting its status, so a queued
  job can read RUNNING; no other step does that (`Retention.QueuedAsRunningIff`).
- A record that `take_result` removed and `from_record` cannot decode is lost: the handle caches nothing.

## Model

| member | source | states |
|---|---|---|
| `Guarantees.NoJobLostOrDuplicated` | src/TaskQueue/backends/redis_backend.py:63-213 | In every reachable state a non-terminal job's id occurs exactly once across the queue and all processing lists, and any other id occurs nowhere |
| `Guarantees.NoLiveRecordVanishes` | src/TaskQueue/backends/redis_backend.py:370-401 | The vanished-record branch of claim is unreachable, a moved id always has a record, and no live record carries an expiry |
| `Guarantees.EveryLeaseIsVisible` | src/TaskQueue/worker.py:64-95 | Every non-empty processing list has its owner in the liveness set; a pool that is up is registered and not expired; only such pools handle jobs |
| `Guarantees.TerminalIsAbsorbing` | src/TaskQueue/backends/redis_backend.py:78-113 | After any reachable state with a terminal or consumed job, no continuation makes it QUEUED or RUNNING or brings it back |
| `Guarantees.ResultsAreTakenOnce` | src/TaskQueue/backends/redis_backend.py:430-451 | Over a whole run no two `take_result` calls return the same id, and each returned record is terminal and gone from the store |
| `Guarantees.AttemptsCountDeliveries` | src/TaskQueue/backends/redis_backend.py:86-87 | `attempts` equals the number of claim scripts executed for the id in the run, and so does the stale copy a worker will write back |
| `Guarantees.CancellationIsJustifiedAndDurable` | src/TaskQueue/backends/redis_backend.py:138-155 | CANCELLED implies some request found the job non-terminal; a live record carries the flag if and only if one did |
| `Guarantees.NoBodyStartsAfterCancel` | src/TaskQueue/worker.py:156-162 | Once a request was accepted, every later delivery saves CANCELLED only and never starts the body, through any crash, reap, release and re-claim |
| `Guarantees.AwaitingIsNotInHand` | src/TaskQueue/backends/redis_backend.py:370-401 | While a job is queued or moved and unclaimed, no loop of any pool has it in hand |
| `Guarantees.ChangesArePublished` | src/TaskQueue/backends/redis_backend.py:92-155 | A live job ends only by a terminal save that took effect, and a live record's flag changes only by a cancel request: the two scripts that publish |
| `Guarantees.EveryDeliveryIsAccountedFor` | src/TaskQueue/worker.py:97-144 | Whenever a loop lets go of a job, the lease was acked, is at the queue's end, or is still on that worker's list |
| `Guarantees.CrashIsAccountedFor` | src/TaskQueue/worker.py:97-144 | The same for every job in flight when a pool dies |
| `Guarantees.FirstInFirstOut` | src/TaskQueue/backends/redis_backend.py:371-373 | Whatever else runs, the id at index p is leased by exactly the (p+1)-th effective BLMOVE and stays queued until then |
| `Guarantees.QueueStep` | src/TaskQueue/backends/redis_backend.py:63-213 | An effective BLMOVE drops the head; every other step only appends |
| `Guarantees.ReclaimedAt` | src/TaskQueue/backends/redis_backend.py:186-210 | One reap puts a dead worker's lease behind the old queue, among the ids reclaimed with it |
| `Retention.ExpiresAfterItsTtl` | src/TaskQueue/backends/redis_backend.py:106-110 | Over runs, a stored terminal record may expire exactly from `result_ttl` seconds after its last effective save |
| `Retention.ResultsAreRetained` | src/TaskQueue/backends/redis_backend.py:106-110 | Over runs, a result nobody takes is still stored while fewer than `result_ttl` seconds have passed since that save |
| `Retention.SubmittedJobSurvives` | src/TaskQueue/backends/redis_backend.py:63-213 | Every stored record, and every copy in a worker's hands, has the envelope, payload and group that were submitted under its id |
| `Retention.QueuedAsRunningIff` | src/TaskQueue/backends/redis_backend.py:383-391 | A live record says QUEUED or RUNNING, and comes to say RUNNING in the queue by exactly one step: the recovery of a claim whose script had taken effect |
| `Retention.AnswersAreOncePerJob` | src/TaskQueue/backends/redis_backend.py:443-451 | Of all answered `take_result` calls of a run no two return one job, and each returns a terminal record |
| `Retention.BeatStep` | src/TaskQueue/backends/redis_backend.py:157-213 | A worker's beat is the second of the last step that stamped it, until a withdrawal without leases or a reap past its TTL removes it |
| `Retention.ProgressSaveKeepsTheLease` | src/TaskQueue/backends/redis_backend.py:100-112 | A save without `done` changes the one record and nothing else |
| `Guarantees.BoundedRecovery` | src/TaskQueue/backends/redis_backend.py:177-213 | A dead worker's lease is leased again within one reap past its TTL and as many moves as the old queue plus the reclaimed leases |
| `Guarantees.FailStopIsNeeded` | src/TaskQueue/backends/redis_backend.py:82-87 | A concrete run in which a reaped but live pool's claim script returns a COMPLETED job to RUNNING |
| `Guarantees.OneIncarnationIsNeeded` | src/TaskQueue/backends/redis_backend.py:430-451 | With an id reused between the read and the transaction, `take_result` returns an unfinished record and leaves its id queued |
| `Invariant.StepInv` | src/TaskQueue/backends/redis_backend.py:63-213 | Every enabled step keeps the whole protocol invariant |
| `Invariant.RunInv` | src/TaskQueue/backends/redis_backend.py:63-213 | Every run keeps it |
| `Invariant.ReapSparesTheLiving` | src/TaskQueue/backends/redis_backend.py:186-187 | Under the invariant reap selects no pool that is up |
| `Invariant.SaveInv` | src/TaskQueue/backends/redis_backend.py:92-113 | A terminal save keeps the invariant for every fate of the call |
| `Invariant.ClaimInv` | src/TaskQueue/backends/redis_backend.py:78-90 | So does a claim script that answers, errors or is cancelled |
| `Invariant.ReapInv` | src/TaskQueue/backends/redis_backend.py:177-213 | So does a reap |
| `Places.PlacedMeansOnce` | src/TaskQueue/backends/redis_backend.py:370-401 | The structural placement invariant is the counting statement: one occurrence if live, none otherwise |
| `Places.SavePlaced` | src/TaskQueue/backends/redis_backend.py:104-110 | A terminal save by the holder removes the id from every list and disturbs no other lease |
| `Places.HandBackPlaced` | src/TaskQueue/backends/redis_backend.py:131-133 | LREM and RPUSH of a held lease keep every id in exactly one place |
| `Reaper.ReapMeetsItsSpec` | src/TaskQueue/backends/redis_backend.py:177-213 | Expired workers end with no list and no entry; the queue grows by exactly the drained ids with records in list order; in those records RUNNING becomes QUEUED, any other status stays and every other field is the old one; all other records, lists and beats are untouched |
| `Reaper.KeptIsTheFilter` | src/TaskQueue/backends/redis_backend.py:199-207 | What reap requeues of a list is exactly its entries that have a record, each once per entry and in order |
| `Reaper.NothingLeftToReap` | src/TaskQueue/backends/redis_backend.py:177-213 | A second reap at the same clock, with the same or a longer TTL, changes nothing |
| `Scripts.Redis.ReapScript` | src/TaskQueue/backends/redis_backend.py:177-213 | The nested loops terminate in the specified store; reclaimed counts the drained ids with records, and reclaimed plus dropped counts every drained lease |
| `Scripts.Redis.ReapEach` | src/TaskQueue/backends/redis_backend.py:191-210 | The outer loop reclaims a list of distinct workers, with both counters exact |
| `Scripts.Redis.DrainWorker` | src/TaskQueue/backends/redis_backend.py:193-208 | The inner loop empties one list onto the queue, with both counters exact |
| `Scripts.RemoveFirst` | src/TaskQueue/backends/redis_backend.py:107 | LREM with count 1: without the id the list is unchanged, else the first occurrence alone is gone and the rest keeps its order |
| `Scripts.Redis.EnqueueScript` | src/TaskQueue/backends/redis_backend.py:63-76 | New state and reply, publishing nothing; a known id changes nothing |
| `Scripts.Redis.Blmove` | src/TaskQueue/backends/redis_backend.py:371-373 | Head of the queue to the tail of the worker's list, or None on an empty queue |
| `Scripts.Redis.ClaimScript` | src/TaskQueue/backends/redis_backend.py:78-90 | Status RUNNING and attempts plus one whatever the old status, or None with no change |
| `Scripts.Redis.RequeueTransaction` | src/TaskQueue/backends/redis_backend.py:383-391 | The claim-error recovery: LREM then an unconditional RPUSH |
| `Scripts.Redis.SaveScript` | src/TaskQueue/backends/redis_backend.py:92-113 | Merge, and when done also LREM, EXPIRE and exactly one publish; no change for a missing record |
| `Scripts.Redis.ReleaseScript` | src/TaskQueue/backends/redis_backend.py:115-136 | Its three replies and states |
| `Scripts.Redis.RequestCancelScript` | src/TaskQueue/backends/redis_backend.py:138-155 | Flags and publishes exactly when the record is non-terminal |
| `Scripts.Redis.HeartbeatScript` | src/TaskQueue/backends/redis_backend.py:157-161 | The worker's score becomes the current second |
| `Scripts.Redis.DeregisterScript` | src/TaskQueue/backends/redis_backend.py:163-175 | Refuses while leases remain; reports whether an entry was removed |
| `Scripts.Redis.TakeTransaction` | src/TaskQueue/backends/redis_backend.py:443-451 | Reads and deletes the record and its expiry together |
| `Stores.ByScore` | src/TaskQueue/backends/redis_backend.py:187 | Sorted-set order: each member once, by score, ties by member |
| `Liveness.TwoSidedBound` | src/TaskQueue/backends/redis_backend.py:186-187 | With whole-second clocks a beat at most TTL-1 seconds old is never expired and one at least TTL old always is |
| `Liveness.SelectedIsExpired` | src/TaskQueue/backends/redis_backend.py:186-187 | The bound's notion of a selected worker is the reaper's |
| `Liveness.LongestInterval` | src/TaskQueue/worker.py:30-37 | A third of the TTL is the longest interval accepted |
| `Liveness.BoundIsTight` | src/TaskQueue/backends/redis_backend.py:157-161 | Any age strictly between the two is expired at one phase of the clock and not at another |
| `Liveness.PunctualWorkerIsNeverReaped` | src/TaskQueue/worker.py:25-38 | With an accepted interval and a TTL of 3 or more, a worker with beats at most two intervals apart is selected by no reap |
| `Liveness.SafeIffAtLeastThree` | src/TaskQueue/worker.py:21-38 | The accepted margin protects a live worker if and only if the TTL is at least 3 |
| `Liveness.PunctualPoolsLetTheClockMove` | src/TaskQueue/worker.py:257-267 | Punctual pools meet the protocol's clock guard |
| `Liveness.GuardIsFailStop` | src/TaskQueue/backends/redis_backend.py:186-187 | The clock guard fails if and only if reap would select a pool that is up |
| `Interleaving.DeliveryIsAProtocolRun` | src/TaskQueue/worker.py:97-226 | From any world with the invariant and the job delivered, after any run in which this worker's acts on it are a prefix of what its code does (for every outcome of body, watcher, both saves and release) and the pool does not die, the next act is enabled, asking only that the flag is stored when the watcher returns; the last act lets go of the job |
| `Interleaving.ClaimIsAProtocolRun` | src/TaskQueue/backends/redis_backend.py:378-401 | The same for `claim` after BLMOVE, whatever happens before the script and before the recovery; the script always finds the record, and its answer leaves the loop holding a RUNNING lease with exactly the stored record |
| `Interleaving.MoveBeginsAClaim` | src/TaskQueue/backends/redis_backend.py:371-376 | BLMOVE is open to every pool that is up, and one that answers with an id leaves its loop at that id |
| `Interleaving.DeliveryOutcome` | src/TaskQueue/worker.py:97-144 | Under any interleaving a delivery ends acked with the record its last effective save wrote, field by field (unless that was since consumed), at the queue's end and QUEUED after a release, or still on this worker's list |
| `Interleaving.CancelReachesTheBody` | src/TaskQueue/worker.py:180-215 | From any world with the body running, a cancel request lets the watcher return, and the job is then saved CANCELLED |
| `Interleaving.Interleaved` | src/TaskQueue/worker.py:97-226 | Any path of acts, interleaved with anything: where it stands, what is permitted next, and what the record is |
| `Interleaving.OthersKeepStanding` | src/TaskQueue/worker.py:97-144 | No step but a loop's own, or its pool's death, moves it from where it stands with a job |
| `Interleaving.LoopsCanEnd` | src/TaskQueue/worker.py:89-92 | From every world there is a run of a pool's own loops after which it has nothing in hand, so gathering them can always succeed |
| `Interleaving.OneJobRoundTrip` | src/TaskQueue/backends/redis_backend.py:360-451 | From the empty store, any job submitted, run and collected with every call answered comes back COMPLETED with its result, its payload and one attempt, and leaves no record |
| `Driving.RunOutcome` | src/TaskQueue/worker.py:156-226 | Which status `_run` may write and why, with the body's own result if COMPLETED, and exactly which when its first save answers; a FAILED record carries the message of what failed, any other the copy's error, and every other field is the copy's; CANCELLED comes only from the flag or a watcher that returned, never from one that raised |
| `Driving.RunSaves` | src/TaskQueue/worker.py:197-222 | `_run` saves once, and once more as FAILED exactly when a save inside the try block raised |
| `Driving.RunCutShort` | src/TaskQueue/worker.py:216-217 | CancelledError leaves `_run` if and only if the race or its last save was interrupted |
| `Driving.DeliverPath` | src/TaskQueue/worker.py:114-144 | Each act of a delivery is permitted where the ones before it lead, and the last one lets go of the job |
| `Workers.Worker.Turn` | src/TaskQueue/worker.py:97-144 | With everybody else running at every await, one turn claims exactly the head BLMOVE met; its acts on that job are exactly those of claim and delivery, for the outcome of the race between body and watcher in the world where it was decided; the loop goes on after any exception and ends exactly after CancelledError |
| `Workers.Worker.Serve` | src/TaskQueue/worker.py:111-144 | Claim, then process what was claimed, with the race's own outcome; it ends the loop exactly when claim or delivery was cut short |
| `Workers.Worker.Process` | src/TaskQueue/worker.py:114-154 | A record that decodes is delivered; one that does not keeps its lease and the loop goes on |
| `Workers.Worker.TakeHead` | src/TaskQueue/backends/redis_backend.py:371-376 | BLMOVE returns the head of the queue it meets, or nothing |
| `Workers.Worker.Claim` | src/TaskQueue/backends/redis_backend.py:378-401 | For all fates of script and recovery, the acts of claim in order; a record comes back exactly when the script answered |
| `Workers.Worker.Settle` | src/TaskQueue/backends/redis_backend.py:383-397 | Recovery after an error, LREM after an empty reply, and what the caller sees |
| `Workers.Worker.Deliver` | src/TaskQueue/worker.py:114-139 | The acts of `_run` for the race's own outcome and, exactly when CancelledError leaves it, the release; afterwards the loop has let go |
| `Workers.Worker.Run` | src/TaskQueue/worker.py:156-226 | The acts of `_run` in order for the outcome the race had where it was decided, and CancelledError exactly when they were cut short |
| `Workers.Worker.RunTask` | src/TaskQueue/worker.py:176-226 | The try block for the race's own outcome, and one FAILED save if the body or the save raised |
| `Workers.Worker.Attempt` | src/TaskQueue/worker.py:179-215 | What body and watcher came to while everybody else ran decides the try block, which saves exactly a completed or cancelled job, once |
| `Workers.Worker.Save` | src/TaskQueue/worker.py:228-230 | One terminal write for every fate, in the world the call meets; an answered one raises KeyError exactly when the record is gone there, which only a retry can meet |
| `Workers.Worker.Enter` | src/TaskQueue/worker.py:64-82 | The step that registers comes before any loop or upkeep exists, and they exist exactly if it answered; a second entry changes no field and no store |
| `Workers.Worker.Exit` | src/TaskQueue/worker.py:84-95 | The run of leaving: others and the loops until none has a job, stop, others and beats, others without beats, withdraw last; a withdrawal that takes effect leaves the pool registered exactly if it still holds leases |
| `Workers.Worker.Gather` | src/TaskQueue/worker.py:89-92 | Once the loops are gathered nothing of this pool is in flight, and only then does it stop counting as up |
| `Workers.Worker.Deregister` | src/TaskQueue/worker.py:269-280 | Withdrawing needs every loop and the upkeep gone; one that takes effect removes this worker's beat unless it holds leases, and nobody else's |
| `Wakeups.NoResultIsMissed` | src/TaskQueue/backends/redis_backend.py:430-441 | Over every interleaving of the whole protocol with one backend's waits: a job terminal, taken or expired while a `take_result` is parked on it means its event is set or a message is on its way to a running reader unless one was lost, and the next poll ends the wait in any case |
| `Wakeups.NoCancelIsMissed` | src/TaskQueue/backends/redis_backend.py:470-482 | The same for the cancel flag of a live job and a parked `wait_cancel` |
| `Wakeups.ReadDecides` | src/TaskQueue/backends/redis_backend.py:438-495 | Over every interleaving, a `take_result` leaves its loop if and only if the job it reads is no longer QUEUED or RUNNING, and then a terminal record can be taken or the record is gone; a `wait_cancel` leaves at a live job if and only if its flag is stored; every other read parks |
| `Wakeups.StepTracked` | src/TaskQueue/backends/redis_backend.py:92-155 | Every protocol step changes which jobs are live, finished or flagged exactly as the signal it publishes says |
| `Wakeups.MovesOk` | src/TaskQueue/backends/redis_backend.py:216-306 | Every combined run keeps the protocol's invariant, the notifier's, and their agreement on every job |
| `Waits.NoLostWakeup` | src/TaskQueue/backends/redis_backend.py:430-441 | With nothing dropped, a parked wait whose record already says so has its event set or a message on its way to a running reader, in every interleaving |
| `Waits.MessageArrives` | src/TaskQueue/backends/redis_backend.py:286-306 | The k-th buffered message sets its watchers' events after k reads |
| `Waits.PollEndsTheWait` | src/TaskQueue/backends/redis_backend.py:216-220 | With any drops, once the job has ended the next read by a `take_result` wait ends it, and it stays ended |
| `Waits.PollIsTwoEvents` | src/TaskQueue/backends/redis_backend.py:216-220 | A parked wait can always lapse and re-read, which ends it when the record says so |
| `Waits.EventsAreSetByMessages` | src/TaskQueue/backends/redis_backend.py:216-306 | An event is set exactly by the delivery of a message its wait watches, and cleared exactly by the wait on its way back to the record |
| `Waits.NotifierConsistency` | src/TaskQueue/backends/redis_backend.py:235-284 | Over all interleavings, whenever the lock is free a watched channel has watchers, is subscribed, and has a connection and a reader task |
| `Waits.LastLeaveClosesTheConnection` | src/TaskQueue/backends/redis_backend.py:262-284 | A leave empties the table if and only if no other wait watches, and then removes reader and connection |
| `Waits.EventOk` | src/TaskQueue/backends/redis_backend.py:223-306 | Every event keeps the notifier's invariant, with failed and cancelled subscribes |
| `Waits.FailedFirstJoinKeepsTheConnection` | src/TaskQueue/backends/redis_backend.py:239-248 | After a failed first subscribe a connection remains with no watcher and no reader |
| `Waits.IdleHasNoReader` | src/TaskQueue/backends/redis_backend.py:235-284 | Over all runs, with the lock free and nobody watching there is no reader task |
| `Waits.OpenWhileIdleNeedsAFailedJoin` | src/TaskQueue/backends/redis_backend.py:244-248 | Over all runs, an event leaves a connection open with nobody watching if and only if it is a failed subscribe by the only watcher |
| `Waits.OpenWhileIdleIff` | src/TaskQueue/backends/redis_backend.py:244-248 | The same for one event of any consistent notifier |
| `Waits.DeadReaderStaysDead` | src/TaskQueue/backends/redis_backend.py:249-251 | A stopped reader stays until the leave that empties the table |
| `Notifiers.Notifier.Join` | src/TaskQueue/backends/redis_backend.py:235-251 | With other waits running during the subscribe, the fields become what the state machine says; a failed subscribe restores the table |
| `Notifiers.Notifier.Subscribe` | src/TaskQueue/backends/redis_backend.py:244-250 | The part of `join` that holds the lock across its await |
| `Notifiers.LockedRun` | src/TaskQueue/backends/redis_backend.py:238-250 | While one wait holds the lock to subscribe, nobody changes the table or the connection |
| `Notifiers.Notifier.Forget` | src/TaskQueue/backends/redis_backend.py:253-260 | One watcher is dropped, and the channel with its last |
| `Notifiers.Notifier.Leave` | src/TaskQueue/backends/redis_backend.py:262-284 | The fields become what the state machine says |
| `Notifiers.Notifier.Dispatch` | src/TaskQueue/backends/redis_backend.py:302-306 | The loop sets exactly the events watching the message's channel |
| `Notifiers.Notifier.Clear` | src/TaskQueue/backends/redis_backend.py:216-220 | The event is cleared whether a message or the poll ended the pause |
| `Notifiers.JoinedOk` | src/TaskQueue/backends/redis_backend.py:235-251 | A join that returned or raised leaves the lock free and the invariant intact, and watches exactly if it returned; one that raised leaves the table as it was |
| `Notifiers.OneWatcherIsNew` | src/TaskQueue/backends/redis_backend.py:241-243 | One watcher after adding means nobody watched the channel before |
| `Scopes.FailFastLedger` | src/TaskQueue/job_group.py:129-147 | For every order of completions and callbacks the failures are the first of any kind and then every later non-JobCancelled one, in order; fanned out if and only if a failure was processed |
| `Scopes.OneFanoutPerRun` | src/TaskQueue/job_group.py:141-147 | Over a whole run at most one step issues a fan-out, the callback of the first failure; it names one id for each child spawned so far and not done, in spawn order, and no other, and the run keeps it |
| `Scopes.FanoutIsOneShotAndExact` | src/TaskQueue/job_group.py:141-147 | The same for one step of any scope that satisfies the invariant |
| `Scopes.ScopeExitSafety` | src/TaskQueue/job_group.py:67-119 | Normal exit means every child returned (in ignore mode, every waiter done); body error, deadline and cancellation have requested every child's cancellation; a group holds only failures; unless settling is interrupted every waiter is done |
| `Scopes.TeardownAsksThenWaits` | src/TaskQueue/job_group.py:178-195 | On a body error, deadline or cancellation every handle's cancellation is requested in one call and the children are then waited for; the drop of their waiters comes after that wait |
| `Scopes.StepOk` | src/TaskQueue/job_group.py:67-236 | Every step of a scope keeps its invariant |
| `Scopes.BackstopNeverFires` | src/TaskQueue/job_group.py:202-219 | Whenever the default join resumes with children pending, the callback has already fanned out |
| `Scopes.BackstopIsExact` | src/TaskQueue/job_group.py:209-218 | Were the backstop needed, it would request exactly the children not done, in spawn order |
| `Scopes.RunningListsPending` | src/TaskQueue/job_group.py:144 | The fan-out's list holds exactly the children not done, one id each, in spawn order |
| `Scopes.ExceptionsInOrder` | src/TaskQueue/job_group.py:231-236 | Collect mode's group is in spawn order, each child at most once |
| `Scopes.RecordedIffCallbackRan` | src/TaskQueue/job_group.py:129-147 | A failure other than JobCancelled is recorded if and only if its callback has run |
| `Scopes.GroupIsCompleteIffNonePending` | src/TaskQueue/job_group.py:197-220 | Over runs: a raised group was decided at one step with every child done; by default it is the ledger as of then and holds every failure other than JobCancelled if and only if no callback of one was pending when the join resumed, after a drain always; in collect mode it is every child that did not return, in spawn order; ignore mode raises none |
| `Scopes.RecordedIffNonePending` | src/TaskQueue/job_group.py:202-220 | With every child done, the recorded failures are complete if and only if no callback of one is pending |
| `Scopes.DrainIsComplete` | src/TaskQueue/job_group.py:219-220 | When the drain of the pending siblings ends, every callback has run and the failures are complete |
| `Scopes.EmptyWaitIffNoWaiters` | src/TaskQueue/job_group.py:85-93 | A scope leaves through the ValueError of an empty wait if and only if its body returned, in the default mode, with handles and no waiters |
| `Scopes.EmptyWaitNeedsOutsideJobs` | src/TaskQueue/job_group.py:169-174 | Over runs: if and only if every job of the default-mode scope was spawned before entry and there was one |
| `Scopes.SpawnedOutsideOnly` | src/TaskQueue/job_group.py:163-176 | Such a run |
| `Scopes.LateFailureIsMissing` | src/TaskQueue/job_group.py:197-220 | A run whose raised group lacks a child that failed inside the scope |
| `Scopes.SettledScopeLeavesNothing` | src/TaskQueue/job_group.py:149-161 | If no child can still record the first failure when settling begins, no waiter and no fan-out survives it |
| `Scopes.FanoutOutlivesSettleIffRisky` | src/TaskQueue/job_group.py:149-161 | Otherwise, and only otherwise, some continuation leaves a fan-out running after the scope |
| `Scopes.AFanoutCanSurvive` | src/TaskQueue/job_group.py:149-161 | Such a run from the empty scope |
| `JobGroups.JobGroup.EnterScope` | src/TaskQueue/job_group.py:61-65 | The fields follow the scope's step |
| `JobGroups.JobGroup.SpawnJob` | src/TaskQueue/job_group.py:163-176 | Every spawn adds a handle, and only one after entry adds a waiter, as the scope's step does |
| `JobGroups.JobGroup.OnJobFinished` | src/TaskQueue/job_group.py:129-147 | The done-callback's early returns amount to the ledger step |
| `JobGroups.JobGroup.Running` | src/TaskQueue/job_group.py:144 | One id for each waiter not done, in spawn order, and no other |
| `JobGroups.JobGroup.CollectFailures` | src/TaskQueue/job_group.py:231-236 | Exactly the children that did not return, in spawn order |
| `JobGroups.JobGroup.Exit` | src/TaskQueue/job_group.py:67-119 | With the event loop running at every await, the code of every way out is a run of the scope: the cause matches how the body and the waits ended, and the guarantees of leaving hold of its own fields |
| `JobGroups.JobGroup.LeaveBody` | src/TaskQueue/job_group.py:77-117 | The cause is the body's error, nothing to wait for, the refused empty wait, or what ended the join |
| `JobGroups.JobGroup.JoinScope` | src/TaskQueue/job_group.py:88-114 | A deadline or a cancellation of the join cancels every child before it is passed on; failures become a group |
| `JobGroups.JobGroup.CancelAllJobs` | src/TaskQueue/job_group.py:178-195 | Every handle's cancellation is requested, in one call, before the waiters are waited for and settled |
| `JobGroups.JobGroup.CancelSiblingsMode` | src/TaskQueue/job_group.py:197-220 | The first wait, the backstop and the drain, ending as the waits end, with the recorded failures as result |
| `JobGroups.JobGroup.GatherMode` | src/TaskQueue/job_group.py:222-236 | Ignore returns nothing and collect every exception, once all waiters are done |
| `JobGroups.JobGroup.Settle` | src/TaskQueue/job_group.py:149-161 | The gather of waiters and fan-out, complete unless it is interrupted |
| `JobGroups.JobGroup.Await` | src/TaskQueue/job_group.py:129-147 | Whatever completions and callbacks the event loop runs, the fields follow the scope |
| `Agreement.BackendsAgree` | src/TaskQueue/backends/memory_backend.py:20-110 | For every fault-free sequence of operations from empty, both backends give the same replies, errors and blocking, and end with the same records and queue |
| `Agreement.EventsFollowTheRecords` | src/TaskQueue/backends/memory_backend.py:20-106 | Over the same runs exactly the unfinished jobs have a done-event and a cancel-event, and the latter is set if and only if the record carries the flag |
| `Agreement.OpAgrees` | src/TaskQueue/backends/memory_backend.py:20-110 | Each operation gets the same reply and keeps the simulation relation |
| `Agreement.RedisClaimIsClaim` | src/TaskQueue/backends/redis_backend.py:370-401 | The claim used in the comparison is BLMOVE and script of the protocol, both answered |
| `Agreement.SavesAgreeExactlyWhen` | src/TaskQueue/backends/memory_backend.py:48-65 | Replacing and merging give one record if and only if the update covers every optional field the stored record has |
| `Agreement.RetriedSaveDiffers` | src/TaskQueue/worker.py:215-222 | A FAILED retry over a COMPLETED record: memory drops the result, Redis keeps it |
| `Memory.MemoryBackend.Enqueue` | src/TaskQueue/backends/memory_backend.py:20-29 | New state of all four structures |
| `Memory.MemoryBackend.Claim` | src/TaskQueue/backends/memory_backend.py:31-40 | Head of the queue leased, attempts plus one, or nothing |
| `Memory.MemoryBackend.Save` | src/TaskQueue/backends/memory_backend.py:48-65 | The record is replaced; a terminal one drops both events |
| `Memory.MemoryBackend.Release` | src/TaskQueue/backends/memory_backend.py:67-77 | Only a RUNNING job goes back to the queue |
| `Memory.MemoryBackend.TakeResult` | src/TaskQueue/backends/memory_backend.py:79-89 | Blocks while the done-event is unset, then removes the record |
| `Memory.MemoryBackend.RequestCancel` | src/TaskQueue/backends/memory_backend.py:91-106 | Flags a known, non-terminal job |
| `Codec.RecordRoundTrip` | src/TaskQueue/job.py:51-97 | Encode, flatten in any field order, re-pair, decode: every job field is unchanged, and the whole job is exactly when it is COMPLETED or has no result |
| `Codec.DecodedField` | src/TaskQueue/backends/redis_backend.py:350-358 | Each field of a reply decodes to what was written, and absent stays absent, whatever the order |
| `Codec.Flatten` | src/TaskQueue/backends/redis_backend.py:51-56 | The loop builds the alternating list the decoder inverts |
| `Codec.HsetMerges` | src/TaskQueue/backends/redis_backend.py:104 | HSET of a record's fields is the record merge used by save |
| `Codec.HsetOneField` | src/TaskQueue/backends/redis_backend.py:151 | HSET of status or flag changes that record field alone |
| `Codec.HincrbyAttempts` | src/TaskQueue/backends/redis_backend.py:86-87 | HINCRBY on the decimal text is attempts plus one |
| `Codec.DecimalRoundTrip` | src/TaskQueue/job.py:66 | Decimal text parses back to the number |
| `Children.SeedIsInjective` | src/TaskQueue/job_group.py:39 | The seed "parent:ordinal" names one pair, over all strings and numbers |
| `Children.ChildIdsAreDistinct` | src/TaskQueue/job_group.py:32-39 | With a hash that separates the seeds in use, two child ids are equal if and only if parent and ordinal are |
| `Children.RerunsDoNotFork` | src/TaskQueue/worker.py:146-154 | Any series of non-overlapping re-runs keeps exactly the longest run's children enqueued |
| `Children.EveryChildOnce` | src/TaskQueue/backends/redis_backend.py:63-76 | From a store that knows none of them, each of those children was enqueued exactly once, in ordinal order |
| `Children.LongestIsTheLongestRun` | src/TaskQueue/worker.py:146-154 | The longest run is the largest number of spawns between two starts of the body |
| `Children.JobContext.NextSpawn` | src/TaskQueue/context.py:16-26 | Ordinals count up from zero per body |
| `Handles.CallersShareOneResult` | src/TaskQueue/handle.py:39-49 | Over all interleavings, callers that return share one job, one call is inside the backend at most, and successful takes are the cached job plus the undecodable ones |
| `Handles.CacheIsFinal` | src/TaskQueue/handle.py:42-46 | Once cached, the job never changes and the backend is never called again |
| `Handles.CallsAreCounted` | src/TaskQueue/handle.py:44-49 | Every backend call that was begun has ended or is the one under way |
| `Handles.JobHandle.Consume` | src/TaskQueue/handle.py:39-49 | With other callers running at both awaits: the cached job, else what the second look finds under the lock, else what was taken and decoded; a caller cancelled while it waits for the lock makes no backend call |
| `Handles.JobHandle.Result` | src/TaskQueue/handle.py:21-27 | Of exactly that job: FAILED raises with its error, CANCELLED raises JobCancelled, and anything else returns its result |

## Left out

- Driving.RunOutcome: the text of a failed save's exception is one constant, and an unknown task's name is quoted plainly.
- cli.py, `__main__.py` and logger.py: argument parsing, signals and log formatting hold no hard state.
- queue.py and task.py: a facade and a one-call submit; they would only add easy members.
- The serializers, ISO dates and UTF-8: given as functions assumed to invert each other.
- SHA-1 and uuid4: the hash is assumed to separate the seeds in use, generated ids distinct.
- The redis client, sockets and asyncio itself: atomic steps, arbitrary failures and droppable messages stand for them.
- A client built with `decode_responses=True`: only the bytes form of a reply is decoded.
- Text that `int()` accepts beyond plain digits, such as signs, spaces and underscores: the codec never writes it.
- Runs in which a live worker is reclaimed, and two live bodies of one job: the repository lists overlapping redelivery as unsolved (CHANGELOG.md:74-79).
- The pool-width deadlock of nested scopes: a documented sizing rule, not something the code prevents.
- Aliasing of record dictionaries in `MemoryBackend`: records are values here, so a caller that mutates a dict after passing it in is not modelled, and its `wait_cancel` is not modelled.
- `Worker.drain`: the protocol's StopLoops step covers when a pool may stop claiming; the drain timeout is not modelled.
- A second cancellation, or a failing cancel request, inside `cancel_all_jobs`: its end keeps the first cause, and the request counts as made once sent.
- `wait_cancel` on a record that vanished after its first read: such a wait keeps polling until it is cancelled, and no theorem says otherwise.
- Workers.Worker.Run: the 30-second unwind of a cancelled body is part of the race's outcome; a body still unwinding after the job is saved CANCELLED is not modelled.
- Workers.Worker.Gather: that the loops do end is taken from `gather`; `Interleaving.LoopsCanEnd` shows only that they can.
