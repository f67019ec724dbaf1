# Senna in Dafny

Senna is a background job system whose shared state lives in Redis and changes only
through atomic Lua scripts. This project models its core and proves what the scripts and
the workers around them keep, over every run:

- **Batches** (`Batches`, `BatchInvariants`, `BatchTheorems`, `BatchAccounts`, `BatchScripts`,
  `Forests`): the batch record, its seven scripts, and the reporting of finished batches to
  their ancestors.
- **Delivery** (`Delivery`, `UniqueKeys`, `DeliveryStore`, `Commands`, `QueueOrder`,
  `DeliveryScripts`): queues, in-flight lists, retry, scheduled and dead sets, finalization
  markers with their trust keys, unique keys, and any sequence of script calls on them.
- **The machine** (`Machine`, `Workers`, `Outcomes`, `Links`, `Reports`, `Persistence`,
  `Progress`, `LostReplies`, `Rivals`, `KeyRuns`, and the runs in `ZeroDelay` and
  `LostReport`): clients, worker goroutines, reaper and scheduler interleaved one script at a
  time, on copies of jobs and on the Redis lists themselves. Goroutines may act on stale
  payloads, vanish between any two scripts, or lose a reply to a script that took effect.
- **Sequential queues** (`Sequential`): the Redis lock and the per-process semaphores.
- **Rate limiters** (`KeyLifetime`, `Window`, `Points`, `Leaky`, `Concurrent`), with key
  expiry.
- **Resumable iteration** (`Iterators`, `Iteration`).

Scripts that update Redis in place are classes whose methods are proved against functions
on values (`BatchKeys`, `Redis`, `QueueKeys`, `Limiter`, `Checkpoint`); runs are sequences
of steps of those functions. Lua's doubles are `real`, its integers unbounded.

Promised properties that the code does not have come with a run or an input that shows it
and the exact condition under which they hold:

- A rolled-back link can settle a batch without telling its parent
  (`RollbackCanLoseTheSignal`; `RollbackSettlesSilently` says exactly when).
- Linking a child and taking the link back restores the parent exactly under
  `RollbackRestores` (`RollbackUndoesLink`; `RollbackCanAlterTheParent` is a run outside it).
- A retry with no delay drops the job, which strands its batch (`ZeroDelayRetryStrands`;
  `HarmlessIsExact` gives the condition, and `TimedRunsAreHarmless` shows that handlers that
  never ask for such a retry meet it).
- Such a retry also leaves the job's unique key taken (`ZeroDelayRetryLeavesKey`); nothing else
  does (`BackedIsExact`).
- Lost replies leave no trace in jobs and batches, but a lost reply that asked for the parent
  batch to be told leaves the parent waiting (`LostReplyStrandsTheParent`).
  `LostRepliesHarmless` says exactly when the reports come out right as well.
- A goroutine that lost the race to record a job's outcome cannot change what happens to the
  job, but its own outcome can be what the job's batch counts (`RivalCanMiscount`).
  `DecidedIsCounted` gives the exact condition under which no batch counts another outcome.
- A sequential queue is exclusive exactly while its lock outlives the delivery
  (`ExpiryIsExact`).
- The wait that the points limiter reports is right exactly when the cost fits the bucket
  and the key has a refill time (`Points.WaitIsExact`; `LateRefundStalls` is an input without one).

The assumptions are these. Job, batch and lock identifiers are fresh, and a worker
identifier belongs to one process. Payloads are encoded injectively and come from this code;
handlers do not change a job's identifier, queue, batch, unique key or retry count. A batch
is linked to its parent after it is stored and before it settles, as `EnqueueBatch` does.
Redis's clock does not go back. Of all keys only unique locks, sequential locks and limiter
keys expire.

## Model

| member | source | states |
|---|---|---|
| BatchInvariants.CallbackIdsFresh | internal/lua/batch_complete.lua:338-382 | the callbacks numbered by one completion are distinct, new to the callbacks set, and enlarge it by their number |
| BatchInvariants.RecordKeepsCounters | internal/lua/batch_complete.lua:281-382 | recording a result keeps pending = tracked + unflushed members, failures = size of the failed set, callbacks_pending = size of the callbacks set |
| BatchInvariants.RecordKeepsInv | internal/lua/batch_complete.lua:177-382 | recording a result keeps counters, conservation of results, flag discipline (death_fired exactly if dead with a callback, nothing pending only if fired or never filled) and the callback log |
| BatchInvariants.StepKeepsInv | internal/lua/batch_complete.lua:136-382 | each of the seven scripts keeps the batch invariant |
| BatchInvariants.ReachableInv | client/client.go:752-827 | every state of every life of a stored batch satisfies the invariant: total = pending + successes + deaths + invalidated, counters equal set sizes, complete_fired implies pending = 0 |
| BatchTheorems.SignalIffSettles | internal/lua/batch_complete.lua:276-279 | apart from rollback, a step asks for the parent to be told if and only if it moves the batch from unsettled to settled |
| BatchTheorems.RollbackSettlesSilently | internal/lua/batch_remove_child.lua:84-110 | a rollback never asks for a signal, and settles the batch exactly when it removes the last pending member after all callbacks are done |
| BatchTheorems.SignalsBalance | internal/lua/batch_callback_complete.lua:104-117 | over every run, signals plus silent settlings balance resumptions plus being settled now |
| BatchTheorems.OneSignalPerSettling | internal/lua/batch_add_child.lua:98-108 | in every rollback-free life the parent is signalled once per settling, reopenings included |
| BatchTheorems.RollbackCanLoseTheSignal | internal/lua/batch_remove_child.lua:95-110 | a run with a rollback ends settled with no signal ever sent |
| BatchTheorems.SuccessMeansAllSucceeded | internal/lua/batch_complete.lua:223-235 | a step that issues a success callback leaves successes = total, no member and neither dead nor invalidated |
| BatchTheorems.SpoiledNeverSucceeds | internal/lua/batch_complete.lua:190-235 | once dead or invalidated, a batch issues no success callback in any continuation |
| BatchTheorems.HistoryCounts | internal/lua/batch_add_child.lua:98-108 | the recorded number of reopenings is the number of links that found complete_fired set |
| BatchTheorems.CallbackDiscipline | internal/lua/batch_complete.lua:202-235 | over every run the death callback is issued exactly once if it is configured and the batch is dead, and never otherwise; complete callbacks at most once plus once per reopening (exactly that often when fired without rollbacks); and the flags imply an empty batch |
| BatchTheorems.ClampsNeverBind | internal/lua/batch_remove_child.lua:83-93 | in a state of the invariant every counter that a script lowers is positive, so no clamp to zero is taken |
| BatchTheorems.EveryCallbackIdOnce | internal/lua/batch_complete.lua:338-371 | the callback ids pushed over a whole run are numbered without gap and are pairwise distinct |
| BatchTheorems.RollbackUndoesLink | internal/lua/batch_remove_child.lua:76-110 | linking a fresh child and rolling back restores the whole record if and only if it was pending, or had fired with success_fired = not dead; otherwise it differs in the two flags shown |
| BatchTheorems.RollbackCanAlterTheParent | internal/lua/batch_remove_child.lua:104-110 | a reachable batch that has fired without a success callback comes back from link and rollback with success_fired set |
| BatchTheorems.ReachableRollbackRestores | internal/lua/batch_add_child.lua:84-108 | every reachable parent that is pending, or has fired with a success callback configured, is restored exactly |
| BatchTheorems.RepeatedFailure | internal/lua/batch_complete.lua:180-189 | a failure recorded twice for a job changes nothing the second time |
| BatchTheorems.CompleteIsIdempotent | internal/lua/batch_complete.lua:143-152 | running the completion script again changes nothing and never asks for a signal |
| BatchAccounts.TakenIsRecorded | internal/lua/batch_complete.lua:136-395 | a result is recorded exactly when it is for a member still waited for (or ends an empty batch), and the reply is the record as it then stands; otherwise nothing changes and the reply says why |
| BatchAccounts.RetirementReply | internal/lua/batch_callback_complete.lua:89-128 | the reply to a callback retirement is the record as it then stands |
| BatchAccounts.CountersAreAccount | internal/lua/batch_complete.lua:177-221 | over every run successes, deaths and invalidated results are the numbers of such results taken |
| BatchAccounts.FlagsAreAccount | internal/lua/batch_complete.lua:200-217 | over every run dead says whether a member died before any invalidation, and invalidated whether the batch or a child was |
| BatchAccounts.FailuresAreAccount | internal/lua/batch_complete.lua:180-199 | over every run the failed set is the set of members that failed or died |
| BatchAccounts.TotalIsAccount | internal/lua/batch_add_jobs.lua:76-114 | over every run the total is the initial one, plus growth while open, plus links while not invalidated, less links taken back |
| BatchAccounts.LifeIsAccount | client/client.go:752-827 | so the counters and flags of a stored batch follow from the results and growth of its life |
| BatchAccounts.MembershipIsExact | internal/lua/batch_complete.lua:319-325 | who a batch waits for after a script: a failure keeps its member, terminal results and rollbacks remove theirs, only tracking, growth of an open batch and links of a valid one add any; and which callbacks are open |
| BatchAccounts.InvalidatedForEver | internal/lua/batch_invalidate.lua:66-72 | an invalidated batch stays so in every run, and takes no new member and no child |
| BatchAccounts.CallbacksAreExact | internal/lua/batch_complete.lua:202-235 | over every life, rollbacks and reopenings included, there is one complete callback per completion, one success callback per clean completion, one death callback if a member died in time, each if configured, and nothing else is pushed |
| BatchAccounts.DeathIsTold | internal/lua/batch_complete.lua:200-212 | a dead batch with a death callback has issued it once, and its job has been pushed |
| BatchAccounts.FiredInOrder | internal/lua/batch_complete.lua:336-371 | the callbacks of one completion are numbered death, complete, success |
| BatchAccounts.DoneHasFired | internal/lua/batch_complete.lua:223-235 | a batch that ever had a member and has none pending has fired, and is settled once its callbacks are done |
| BatchAccounts.SuccessIsEarned | internal/lua/batch_remove_child.lua:104-110 | success_fired is set only with nothing pending, dead or invalidated |
| BatchScripts.WrittenIsComplete | internal/lua/batch_complete.lua:276-395 | the script's locals, its writes and its callback loop together are the completion function, reply included |
| BatchScripts.BatchKeys.constructor | client/client.go:752-827 | storing a batch yields the new record with all members pending and none tracked |
| BatchScripts.BatchKeys.Classify | internal/lua/batch_complete.lua:177-221 | the branches on the result compute the counters, flags and death callback that the specification names |
| BatchScripts.BatchKeys.Decide | internal/lua/batch_complete.lua:154-235 | with the completion branch after them, they compute the counters, flags and callback list that the specification names |
| BatchScripts.BatchKeys.CompleteScript | internal/lua/batch_complete.lua:121-395 | the script in place equals the completion function, refusals included, and pushes exactly the issued callbacks |
| BatchScripts.BatchKeys.RecordResult | internal/lua/batch_complete.lua:177-395 | an accepted result is recorded as the completion function says |
| BatchScripts.BatchKeys.NumberCallbacks | internal/lua/batch_complete.lua:338-371 | the loop gives the callbacks consecutive numbers after callback_seq |
| BatchScripts.BatchKeys.PushCallbacks | internal/lua/batch_complete.lua:377-380 | the loop tracks every callback and pushes it to the callback queue, in order |
| BatchScripts.BatchKeys.IssueCallbacks | internal/lua/batch_complete.lua:336-382 | the two loops number, track and push the callbacks and change nothing else of the batch |
| BatchScripts.BatchKeys.CallbackCompleteScript | internal/lua/batch_callback_complete.lua:89-128 | the script in place equals the callback retirement function; a missing batch is reported and untouched |
| BatchScripts.BatchKeys.AddChildScript | internal/lua/batch_add_child.lua:75-110 | refused exactly when missing or invalidated; otherwise equals the link function, idempotently |
| BatchScripts.BatchKeys.RemoveChildScript | internal/lua/batch_remove_child.lua:76-112 | equals the rollback function |
| BatchScripts.BatchKeys.TrackAndPush | internal/lua/batch_add_jobs.lua:98-107 | the loop tracks every id and pushes every job to its queue |
| BatchScripts.BatchKeys.AddJobsScript | internal/lua/batch_add_jobs.lua:76-120 | refused exactly when missing, invalidated or complete; otherwise equals the growth function and pushes the jobs |
| BatchScripts.BatchKeys.EnqueueJobsScript | internal/lua/batch_enqueue_jobs.lua:30-44 | equals the tracking function and pushes the jobs |
| BatchScripts.BatchKeys.InvalidateScript | internal/lua/batch_invalidate.lua:66-72 | sets invalidated and nothing else; a missing batch is reported |
| BatchScripts.PushAllAdds | internal/lua/batch_enqueue_jobs.lua:30-38 | pushing jobs adds each of them to its own queue as often as it is listed and leaves every other entry alone |
| BatchScripts.PushAllLinesUp | internal/lua/batch_enqueue_jobs.lua:30-38 | pushed jobs line up behind what their queue holds, in order |
| Forests.ReportedSuccess | internal/batch/callback.go:56-67 | a settled batch is reported dead exactly if it is, invalidated exactly if it is and is not dead, and else as a success, and then all its members succeeded |
| Forests.EdgesShrink | worker/worker.go:674-707 | each recorded terminal result removes a membership from the forest, which bounds the propagation |
| Forests.PropagateKeepsConsistent | worker/worker.go:674-707 | recording a result and reporting upward terminates without assuming acyclicity and leaves no parent waiting for a settled child |
| Forests.RetireCallbackKeepsConsistent | worker/worker.go:723-764 | retiring a callback, with the reporting it triggers, keeps the forest consistent |
| Forests.JobKeepsConsistent | client/client.go:655-690 | completing a job, with the reporting it triggers, keeps the forest consistent |
| Reports.ReportIsTrue | internal/batch/callback.go:56-67 | over every life: a settled batch reports a death exactly if a member died in time, an invalidation exactly if none did and it was invalidated, a success otherwise, and then as many successes as members |
| Reports.EndIsCounted | worker/worker.go:674-707 | how a job ended is what its batch counts: a success, a death that makes it dead unless invalidated, or a failure that leaves the job waited for |
| Reports.EmptyBatchEnds | client/client.go:938-963 | finishing an empty batch fires it, and without callbacks settles and reports it at once |
| Reports.CallbacksAreQueued | internal/lua/batch_complete.lua:336-382 | every callback that a result fires waits in the configured queue as a fresh job that names its batch |
| Reports.ReportsAreTrue | worker/worker.go:694-703 | in every run, whatever is lost or reordered, a report on the way comes from a child of that parent and the death or invalidation that it names is still so |
| Reports.AskedIsTrue | worker/worker.go:694-703 | a report is asked for by a batch that has just settled, and names exactly what became of it |
| Reports.ReportIsTakenOver | worker/worker.go:694-703 | a parent waiting for the child takes the report over; that of a dead child makes it dead, one more death counted, unless it is invalidated |
| Reports.PropagateIsDelivery | worker/worker.go:674-707 | the upward recursion gives the same forest as delivering one report after another |
| Reports.RetireIsDelivery | worker/worker.go:723-764 | the same for the recursion after a callback |
| Delivery.StepKeepsInv | worker/lua/mark_job_finalization.lua:6-50 | every delivery script by any worker, live or presumed dead, keeps: the trust key of a job is exactly its finalized copy, and markers are only in queues and in-flight lists |
| Delivery.FetchDeliversAsIs | worker/lua/fetch_job.lua:16-34 | in a reachable state a fetch never strips a marker |
| Delivery.OnlyTrustedIsDelivered | worker/lua/fetch_job.lua:19-34 | in any state a fetch hands out a marker only if the trust key vouches for it, and changes nothing else of the payload |
| Delivery.ReapVouches | worker/lua/requeue_orphaned.lua:72-81 | in any state a finalized job that the reaper returns is trusted from then on |
| Delivery.OnlyAckRemoves | worker/lua/ack_job.lua:14-22 | only an acknowledgement that finds the job in flight removes it; all other steps keep its identity |
| Delivery.MarkersComeFromMarks | worker/lua/mark_job_finalization.lua:26-50 | apart from enqueueing no script invents a job, and only a mark sets a marker |
| Delivery.FinalizedStays | worker/lua/requeue_orphaned.lua:41-82 | a finalized copy keeps its marker and trust through every script but the terminal one given exactly that payload |
| Delivery.CompetingMarkLoses | worker/lua/mark_job_finalization.lua:6-33 | a mark with another outcome replies 0 and changes nothing |
| Delivery.MarkWins | worker/lua/mark_job_finalization.lua:26-50 | a mark that replies 1 or 2 has made its outcome the trusted one, and repeating it changes nothing |
| Delivery.MarkIsExact | worker/lua/mark_job_finalization.lua:26-50 | a mark wins exactly while the payload, or the same with its own marker, is in flight at the caller or in its queue; it is marked where it is, trusted, and the reply is 1 or 2 by the place; no other job changes |
| Delivery.ReapedIsMarked | worker/lua/mark_job_finalization.lua:35-48 | a job that is reaped from a worker still alive can still be marked by it, in the queue |
| Delivery.ScriptsLand | worker/lua/requeue_job.lua:11-14 | where each script that accepts or finds its job puts it, and as which payload |
| Delivery.ReapReturnsAll | worker/lua/requeue_orphaned.lua:41-82 | the reaper returns every job in flight at the worker to its own queue as it is, and moves no other |
| Delivery.PromoteMovesDue | worker/lua/enqueue_scheduled.lua:23-77 | promotion moves exactly the chosen jobs whose time has come, each to its own queue as it is |
| Delivery.StepKeepsKeysHeld | internal/lua/enqueue_unique_now.lua:16-38 | without expiry every script keeps: each live job with a unique key holds that key |
| Delivery.OneLiveJobPerKey | internal/lua/enqueue_unique_at.lua:15-31 | then at most one live job has a given unique key |
| Delivery.NoForeignUnlock | worker/lua/move_to_dead_job.lua:11-28 | even with expiry, a key is freed only by expiry or by the terminal script of the job that holds it, found in flight |
| UniqueKeys.BackedIsExact | worker/lua/ack_job.lua:6-22 | a script leaves every taken key with a live job that holds it, if and only if it is not a retry without delay that ends the holder |
| UniqueKeys.RunKeepsBacked | worker/lua/move_to_dead_job.lua:11-28 | so in every run without such retries every taken key has its live holder |
| UniqueKeys.AcceptedIffNoneLive | internal/lua/enqueue_unique_now.lua:16-38 | in every run from empty keys without expiry and such retries, a job is accepted if and only if no job with its key is live |
| UniqueKeys.EndFreesKey | worker/lua/ack_job.lua:6-22 | the holder's acknowledgement or move to the dead set frees its key for the next job, and no other key |
| UniqueKeys.AcceptsOnKeys | internal/lua/enqueue_unique_at.lua:15-31 | on the lists and sorted sets: the key is free exactly when no live job with it is held |
| UniqueKeys.ZeroDelayRetryLeavesKey | worker/fetcher.go:745-764 | a retry without delay of a job with a unique key leaves no job and the key taken |
| Delivery.RunKeepsInv | worker/lua/requeue_orphaned.lua:41-82 | the invariants hold in every state of every run |
| Delivery.JobSurvives | worker/lua/retry_job.lua:11-17 | an accepted job is still there, with the same identity, after every run in which no acknowledgement finds it |
| DeliveryStore.SingleCopy | worker/lua/requeue_job.lua:11-14 | in keys that represent a state, a job id is in at most one place with one payload across queues, in-flight lists, retry, scheduled and dead sets |
| DeliveryStore.OccursOnce | worker/lua/retry_job.lua:11-17 | a listed payload occurs exactly once in its list |
| DeliveryStore.RemoveFirstSpec | worker/lua/ack_job.lua:14-22 | LREM with count 1 on a list without repetitions removes exactly that payload |
| DeliveryStore.ReplaceFirstSpec | worker/lua/mark_job_finalization.lua:26-50 | replacing a list element in place changes exactly that element |
| DeliveryStore.MoveRepresents | worker/lua/retry_job.lua:11-17 | taking a payload out of flight and putting a successor elsewhere keeps one copy per job |
| DeliveryStore.FetchRepresents | worker/lua/fetch_job.lua:11-35 | moving the tail of a queue to an in-flight list, an untrusted marker stripped, keeps one copy per job |
| DeliveryStore.ReturnedSpec | worker/lua/requeue_orphaned.lua:41-82 | pushing a list of jobs back puts each into its own queue and adds nothing else |
| DeliveryStore.VouchedSpec | worker/lua/requeue_orphaned.lua:72-81 | after the reaper's loop a trust key vouches for each finalized job returned, and the other trust keys are as before |
| DeliveryStore.ReapRepresents | worker/lua/requeue_orphaned.lua:41-82 | the reaper's move of a whole in-flight list keeps one copy per job and its trust |
| DeliveryStore.DueItems | worker/lua/enqueue_scheduled.lua:23-28 | the range query returns distinct due members, the earliest ones, in order, at most the limit, and all of them if there are fewer |
| DeliveryStore.PromoteRepresents | worker/lua/enqueue_scheduled.lua:68-77 | moving due members to their queues keeps one copy per job |
| DeliveryStore.EnqueueRefines | internal/lua/enqueue_unique_now.lua:16-38 | enqueueing on the keys is the enqueue step on copies |
| DeliveryStore.FetchRefines | worker/lua/fetch_job.lua:11-35 | fetching on the keys is the fetch step, or nothing on an empty queue |
| DeliveryStore.MarkRefines | worker/lua/mark_job_finalization.lua:6-50 | marking on the keys is the mark step, reply code included |
| DeliveryStore.AckRefines | worker/lua/ack_job.lua:6-22 | acknowledging on the keys is the acknowledge step |
| DeliveryStore.RetryRefines | worker/lua/retry_job.lua:11-17 | moving to the retry set on the keys is the retry step |
| DeliveryStore.BuryRefines | worker/lua/move_to_dead_job.lua:11-28 | moving to the dead set on the keys is the bury step |
| DeliveryStore.RequeueRefines | worker/lua/requeue_job.lua:11-14 | requeueing on the keys is the requeue step |
| DeliveryScripts.Redis.EnqueueScript | internal/lua/enqueue_unique_at.lua:15-31 | in place: refused exactly when the unique key is taken, else the job is pushed or scheduled and holds its key |
| DeliveryScripts.Redis.FetchScript | worker/lua/fetch_job.lua:11-35 | in place: the oldest job moves to the in-flight list, with an untrusted marker stripped |
| DeliveryScripts.Redis.MarkScript | worker/lua/mark_job_finalization.lua:6-50 | in place: the four searches in order, the replacement, the trust key and the reply code |
| DeliveryScripts.Redis.AckScript | worker/lua/ack_job.lua:6-22 | in place: trust and own unique key are deleted only if the payload was found |
| DeliveryScripts.Redis.RetryScript | worker/lua/retry_job.lua:11-17 | in place: the successor enters the retry set only if the payload was found |
| DeliveryScripts.Redis.MoveToDeadScript | worker/lua/move_to_dead_job.lua:11-28 | in place: the successor enters the dead set and the own unique key goes only if the payload was found |
| DeliveryScripts.Redis.RequeueScript | worker/lua/requeue_job.lua:11-14 | in place: the successor enters its queue only if the payload was found |
| DeliveryScripts.Redis.RequeueOrphanedScript | worker/lua/requeue_orphaned.lua:41-82 | in place: the loop returns every in-flight payload to its queue, vouches for finalized ones and drops the list |
| DeliveryScripts.Redis.EnqueueScheduledScript | worker/lua/enqueue_scheduled.lua:23-77 | in place: the loops move the earliest due members, up to the limit, to their queues |
| DeliveryScripts.Redis.Perform | worker/fetcher.go:729-880 | each call, with however stale a payload, changes the keys exactly as the script it names |
| DeliveryScripts.Redis.Execute | worker/fetcher.go:729-880 | over any sequence of calls the keys go from each call to the next by that call's script, from the keys at the start to the keys at the end |
| Commands.CallRefines | worker/lua/requeue_orphaned.lua:41-82 | each call on the keys is that call's own step on single copies |
| Commands.StepEnters | worker/lua/ack_job.lua:14-22 | a step adds a job exactly when an enqueue is accepted, and removes one exactly when an acknowledgement finds it |
| Commands.LogRefines | worker/lua/retry_job.lua:11-17 | any sequence of calls is a run on single copies whose jobs are those accepted and not yet acknowledged |
| Commands.EveryJobExactlyOnce | worker/lua/move_to_dead_job.lua:19-28 | from empty keys, over any sequence of calls, the keys hold exactly the jobs accepted and not found by an acknowledgement since, each in one place, under one payload, once in its list |
| Commands.AcceptedJobIsHeld | worker/lua/enqueue_scheduled.lua:68-77 | an accepted job that no later acknowledgement finds is in the keys, once |
| QueueOrder.CallKeepsOrder | worker/lua/fetch_job.lua:11-35 | one call: what waits in a queue followed by what is put in is what is handed out followed by what waits then |
| QueueOrder.FirstInFirstOut | worker/lua/fetch_job.lua:11-35 | over any sequence of calls a queue hands out its jobs in the order in which they were enqueued, requeued, reaped and promoted |
| QueueOrder.QueuedIsReached | worker/lua/fetch_job.lua:11-35 | a waiting job is handed out by one fetch more than jobs wait before it |
| QueueOrder.LiveJobIsReached | worker/lua/requeue_orphaned.lua:41-82 | no live job is beyond reach: some calls, a reap or a promotion among them, end with a fetch that hands it out |
| Machine.DeliveryKeepsCoherent | worker/worker.go:411-497 | every delivery script keeps copies, goroutines and batches coherent |
| Machine.DeliveryStrandsNobody | worker/worker.go:411-497 | a delivery script that ends no job a batch counts on leaves no batch waiting for a missing job |
| Machine.BatchStepKeepsCoherent | internal/lua/batch_complete.lua:336-382 | a batch script keeps copies, goroutines and batches coherent |
| Machine.BatchStepStrandsNobody | internal/lua/batch_complete.lua:374-382 | what a batch starts to wait for is pushed by the same script, so no batch is left waiting for a missing job |
| Machine.RecordKeepsInv | worker/worker.go:674-707 | recording a result in any batch, member or not, keeps the machine invariant and strands nobody |
| Machine.RetireKeepsInv | worker/worker.go:723-764 | retiring a callback keeps the machine invariant and strands nobody |
| Workers.MarkKeepsInv | worker/worker.go:527-549 | marking, replied or not, keeps the machine invariant and strands nobody |
| Workers.TerminateKeepsInv | worker/worker.go:411-497 | the terminal script keeps the machine invariant, and strands nobody when harmless, because the batch steps came first |
| Workers.StepKeepsInv | worker/worker.go:411-549 | every step of any client, goroutine, reaper or scheduler keeps the machine invariant, and a harmless one strands nobody |
| Workers.NoStrandedBatch | worker/worker.go:411-497 | in every state reached without harmful steps, through crashes, zombies and lost replies, each job and callback that a batch waits for has its one copy queued, in flight or waiting for a retry |
| KeyRuns.RecordOnKeys | internal/lua/batch_complete.lua:374-382 | the callbacks that a completion pushes to the lists are those that enter the copies |
| KeyRuns.MembersOnKeys | internal/lua/batch_enqueue_jobs.lua:30-38 | the members that a batch script pushes to the lists are those that enter the copies |
| KeyRuns.KeysFollow | worker/fetcher.go:729-880 | every step of anyone, done on lists and sorted sets that represent the copies, leaves them representing the copies |
| KeyRuns.RunOnKeys | worker/worker.go:411-549 | so does every run |
| KeyRuns.NoStrandedOnKeys | worker/worker.go:411-497 | in every harmless run on the keys, each job and callback that a batch waits for is in a queue, an in-flight list or the retry set, and no job is in two places or twice in a list |
| Workers.HarmlessIsExact | worker/fetcher.go:745-764 | a step leaves some batch stranded if and only if it is a zero-delay retry that removes a job its batch still counts on |
| ZeroDelay.ZeroDelayRetryStrands | worker/fetcher.go:745-764 | a run from the empty system ends with a batch waiting for a job that exists nowhere |
| Outcomes.ScriptIsStep | worker/fetcher.go:766-880 | a goroutine's script call changes delivery keys exactly as the corresponding delivery step |
| Outcomes.DecidedStep | worker/worker.go:499-549 | a recorded outcome survives any step except the one that carries out that very outcome |
| Outcomes.FirstOutcomeWins | worker/worker.go:499-549 | over every run, zero-delay retries included, the first recorded outcome is kept until it is carried out |
| Outcomes.MarkDecides | worker/fetcher.go:821-858 | a mark that replies 1 or 2 decides the job |
| Outcomes.MarkDecidesExactly | worker/fetcher.go:821-858 | a mark leaves its outcome decided if and only if it was, or the goroutine's payload is in flight at its worker or back in its queue |
| Outcomes.ClaimRuns | worker/worker.go:361-367 | any goroutine that claims a job without an outcome runs its handler |
| Outcomes.EndLands | worker/fetcher.go:729-819 | the end of a delivery leaves the job gone, in the dead set as of now, or in the retry set for its time |
| Outcomes.EndFreesKey | worker/fetcher.go:729-819 | a goroutine that ends its job, done or dead, frees the job's unique key; a retry keeps it |
| Outcomes.ClaimResumes | worker/worker.go:499-525 | any goroutine that claims a decided job resumes that outcome without running the handler |
| Outcomes.LoserChangesNothing | worker/fetcher.go:821-858 | a goroutine holding the job unmarked and wanting another outcome changes no delivery key; what it can do to the batch is stated in Rivals |
| Rivals.NoRivalStays | worker/worker.go:499-549 | while a job is decided, no step adds a goroutine that holds it with another outcome, if there was none |
| Rivals.OnlyRivalsAttempt | worker/worker.go:527-549 | until a decided outcome is carried out, every call of the batch script for the job has the decided result if and only if no goroutine holds the job with another operation or still runs its handler |
| Rivals.NoThreatStays | worker/worker.go:527-549 | while a job is decided, no step makes a goroutine one whose other result the job's batch would take, if there was none |
| Rivals.ResultIsTaken | internal/lua/batch_complete.lua:143-152 | a batch that counts on a job takes any result for it but a failure it has noted before |
| Rivals.DecidedIsCounted | worker/worker.go:527-549 | until a decided outcome is carried out, no batch can come to count another result for the job if and only if no goroutine with another operation, or still running, holds the job while its batch counts on it and would take the result |
| Rivals.WithoutRivalsNoMiscount | worker/worker.go:527-549 | so no batch counts another result when no goroutine holds the job with another operation |
| Rivals.RivalCanMiscount | worker/fetcher.go:846-848 | a run from the empty system ends with a batch that counted a member dead while the member is decided, and trusted, to have succeeded |
| Outcomes.TimedRunsAreHarmless | worker/worker.go:435-477 | if no handler asks for a zero-delay retry, every run is harmless |
| Progress.HolderCarriesOut | worker/worker.go:411-497 | a goroutine with a marked job in flight carries the outcome out, if nobody disturbs it |
| Progress.DecidedCanBeCarriedOut | worker/worker.go:499-549 | from every state of every run, whoever has died, some run carries a decided outcome out |
| Progress.LiveJobCanEnd | worker/worker.go:357-367 | from every state of every run, some run takes a live job, queued, in flight, scheduled or waiting for a retry, to whatever its handler decides |
| Links.StepIsChange | worker/worker.go:674-764 | every machine step changes at most one batch, by one batch script, and sends exactly the signal its reply asks for |
| Links.EveryBatchLived | client/client.go:558-637 | every batch in every run has lived a run of the batch model, so all batch theorems hold of it |
| Links.LinksConsistent | worker/worker.go:674-764 | without rollbacks and lost reports, under any interleaving, a parent waits only for children that are unsettled or whose report is on the way; with none on the way the forest is consistent |
| Persistence.StepLasts | worker/worker.go:674-764 | no step of anyone puts a known job or callback back on a batch's books, or forgets a failure |
| Persistence.EndedStays | worker/lua/retry_job.lua:11-17 | a delivery that has ended, the job being gone, dead or at a later attempt, stays ended |
| LostReplies.RecordIsStep | worker/worker.go:674-707 | the batch script of a pass, with the report its reply asks for, is the machine's own step |
| LostReplies.RecordAsksExactly | internal/lua/batch_complete.lua:276-279 | a completion asks for a report exactly when there is a parent, the result is accepted, nothing stays pending, nothing fires and no callback is open |
| LostReplies.RetireAsksExactly | internal/lua/batch_callback_complete.lua:104-117 | a callback's retirement asks for a report exactly when there is a parent and it was the last thing the batch waited for |
| LostReplies.CompletePassIsFinal | worker/worker.go:527-549 | any pass of the finalizer after a complete one changes nothing and reports nothing |
| LostReplies.CutPassLeavesNoTrace | worker/worker.go:527-549 | a pass cut short after any script leaves no trace but in the reports once a later pass completes |
| LostReplies.PassesCombine | worker/worker.go:527-549 | any sequence of cut and repeated passes does what the first pass to reach each script did, replies heard or not |
| LostReplies.LostRepliesLeaveNoTrace | worker/worker.go:411-497 | any number of cut and repeated passes leaves delivery keys and batches as one undisturbed pass would |
| LostReplies.LostRepliesHarmless | worker/worker.go:411-497 | they leave the reports to parents so as well if and only if the first pass to reach each batch script heard its reply or that script had no report to ask for |
| LostReplies.MarkAgain | worker/fetcher.go:821-858 | repeating a mark whose reply was lost gives the same keys and the same code |
| LostReplies.MarkOnceForAll | worker/fetcher.go:821-858 | once a mark is set, repeating it changes nothing in any later state, whatever others did in between |
| LostReplies.RecordOnceForAll | worker/worker.go:527-549 | once the batch script for a member has run, repeating it changes and reports nothing in any later state |
| LostReplies.RetireOnceForAll | worker/worker.go:527-549 | once the batch script for a callback has run, repeating it changes and reports nothing in any later state |
| LostReplies.TerminateOnceForAll | worker/worker.go:527-549 | once a terminal script has found its job, repeating it changes nothing in any later state |
| LostReplies.RepeatNeverSignals | worker/worker.go:668-707 | neither a repeated completion nor a repeated callback retirement ever asks for a report |
| LostReport.LostReplyStrandsTheParent | worker/worker.go:694-703 | a run from the empty system ends with every job done, no report on the way, and a parent waiting for a settled child |
| Sequential.StepKeepsInv | worker/fetcher.go:278-347 | every step, error paths and a release racing a local fetch included, keeps: one goroutine per process past the semaphore, and a busy one owns the lock |
| Sequential.MutualExclusion | worker/fetcher.go:158-179 | in every state reached while locks outlive their deliveries, at most one goroutine over all workers processes a job of the queue |
| Sequential.ExpiryIsExact | worker/lua/sequential_fetch.lua:27-66 | the lock may run out without a later collision if and only if no delivery is busy at that moment |
| Sequential.LockNeverLeaks | worker/lua/release_sequential_lock.lua:1-4 | unless a call or a process fails, a set lock belongs to a goroutine that has yet to run the unlock script |
| Sequential.FreeQueueIsServed | worker/lua/sequential_fetch.lua:27-66 | a worker that finds no other worker's lock gets a waiting job and the lock |
| Sequential.NextWorkerIsServed | worker/fetcher.go:278-347 | once the goroutines of a run without failures are through, lock and semaphores are free and whoever comes next is served |
| Sequential.QueueKeys.FetchScript | worker/lua/sequential_fetch.lua:27-68 | in place: refused for another holder, no lock taken on an empty queue, else the oldest job is claimed, an untrusted marker stripped in the list and in the reply, and the lock set |
| Sequential.QueueKeys.ReleaseScript | worker/lua/release_sequential_lock.lua:1-4 | deletes the lock exactly when the caller holds it |
| Sequential.QueueKeys.DiscardScript | worker/lua/discard_sequential_fetch.lua:6-10 | removes the first occurrence of the payload and the caller's own lock |
| KeyLifetime.Covers | ratelimit/window.go:71-78 | the key lifetime covers the period for every period, despite whole-second rounding, and is at most twice the period, or a second |
| Window.PruneIsSuffix | ratelimit/lua/window.lua:9-11 | pruning a sorted set keeps exactly the scores after the cutoff |
| Window.Outcome | ratelimit/lua/window.lua:9-27 | a call is decided by the admissions inside the window alone, whether or not the key has expired, and reports their number |
| Window.StepKeepsInv | ratelimit/lua/window.lua:9-27 | a call keeps: the key holds the recent admissions, and admissions `limit` apart are a window apart |
| Window.WindowIsExact | ratelimit/lua/window.lua:9-27 | in every run, for every t, at most `limit` admissions lie in (t - window, t], whatever keys expire |
| Window.AdmittedIffRoom | ratelimit/lua/window.lua:9-27 | in every run a call is admitted if and only if fewer than `limit` admissions lie in the window that ends now, and it reports their number |
| Window.RetryIsPositive | ratelimit/lua/window.lua:13-22 | a refusal names a positive wait of at most the window; the clamp is unreachable |
| Window.RetryIsExact | ratelimit/lua/window.lua:13-22 | with no call in between, the next call is admitted if and only if it comes at or after the reported time |
| Window.Limiter.AcquireScript | ratelimit/lua/window.lua:9-27 | in place: equals the admission function |
| Points.StepKeepsInv | ratelimit/lua/points_adjust.lua:7-19 | checks and adjustments keep the balance within the bucket and the key alive for a refill |
| Points.FlowIsRate | ratelimit/lua/points_check.lua:17-19 | a bucket refills by its capacity in one refill time, and the wait for that much is that time |
| Points.RateBound | ratelimit/lua/points_check.lua:14-31 | in any interval of any run, adjustments and expiry included, points taken less points credited by refunds are at most capacity + capacity * T / refill time |
| Points.CheckIsExact | ratelimit/lua/points_check.lua:20-31 | a request is admitted exactly when its cost is there, then exactly its cost is gone, and else nothing changes |
| Points.EstimateThenSettle | ratelimit/lua/points_adjust.lua:15-19 | a check for an estimate and an adjustment by what it was off leave the key that a check for the actual cost would have left |
| Points.AdjustIsExact | ratelimit/lua/points_adjust.lua:7-19 | an adjustment moves the balance by the difference as far as the bucket allows and keeps the refill time; a refund beyond the estimate is turned down |
| Points.RefusedIffOverdrawn | ratelimit/lua/points_check.lua:14-31 | in every run of checks, whatever expires, a request is refused if and only if admitting it would overdraw some interval that ends now |
| Points.WaitIsExact | ratelimit/lua/points_check.lua:22-26 | the reported wait is the least sufficient one if and only if the cost fits the bucket and the key has a refill time |
| Points.LateRefundStalls | ratelimit/lua/points_adjust.lua:15-19 | a refund on an expired key makes a bucket whose refused request is never admitted while the key lives |
| Points.ExpiryUnobservable | ratelimit/points.go:146-153 | runs of checks get the same replies whether or not Redis drops the key |
| Points.Limiter.CheckScript | ratelimit/lua/points_check.lua:7-31 | in place: equals the check function, invalid cost included |
| Points.Limiter.AdjustScript | ratelimit/lua/points_adjust.lua:7-19 | in place: equals the adjustment function, refused refund included |
| Leaky.IsPoints | ratelimit/lua/leaky.lua:8-25 | a leaky bucket is a points bucket seen from below: level + balance = capacity, same decisions, same waits, each request costing one point |
| Leaky.RateBound | ratelimit/lua/leaky.lua:8-25 | in any interval of any run admissions are at most capacity + capacity * T / drain time |
| Leaky.AcquireIsExact | ratelimit/lua/leaky.lua:8-25 | a call is admitted exactly when one more fits, then the level is one higher, and else nothing changes |
| Leaky.LevelDrains | ratelimit/lua/leaky.lua:8-14 | the level is what was poured in less what has drained since, and never negative |
| Leaky.RefusedIffOverflows | ratelimit/lua/leaky.lua:8-25 | in every run, whatever expires, a call is refused if and only if admitting it would make some interval that ends now overflow |
| Leaky.WaitIsExact | ratelimit/lua/leaky.lua:16-20 | a refused call is admitted on repetition if and only if the reported wait has passed |
| Leaky.ExpiryUnobservable | ratelimit/leaky.go:72-79 | every run gets the same replies whether or not Redis drops the key |
| Leaky.Limiter.AcquireScript | ratelimit/lua/leaky.lua:8-25 | in place: equals the admission function |
| Concurrent.LifetimeCovers | ratelimit/concurrent.go:90-96 | the key lifetime exceeds the lock timeout for every timeout, and is at most three timeouts, or a second |
| Concurrent.ScriptTotal | ratelimit/lua/concurrent_init.lua:15-46 | acquire, release and reclaim leave slots + locks unchanged; a first initialization makes it the limit |
| Concurrent.NeverOverLimit | ratelimit/lua/concurrent_init.lua:31-46 | slots + locks never exceed the limit in any run, whichever keys expire and whenever |
| Concurrent.SlotsConserved | ratelimit/lua/concurrent_release.lua:6-15 | once initialized and while no key expires, slots + locks equal the limit |
| Concurrent.AcquireIffRoom | ratelimit/lua/concurrent_acquire.lua:8-17 | once initialized and while no key expires, an acquire succeeds if and only if fewer than `limit` locks are held, and adds just its lock |
| Concurrent.ReleaseMakesRoom | ratelimit/lua/concurrent_release.lua:6-15 | a lock given back makes room for the next caller |
| Concurrent.ReclaimIsExact | ratelimit/lua/concurrent_reclaim.lua:18-36 | a reclaim takes back exactly the locks older than the timeout and frees as many slots |
| Concurrent.WritesRenew | ratelimit/lua/concurrent_init.lua:15-46 | every script that changes a key renews the lifetime |
| Concurrent.AtMostLimitLeases | ratelimit/lua/concurrent_acquire.lua:8-17 | callers never hold more than `limit` leases within the lock timeout, although locks are reclaimed, replies lost and all keys expire |
| Concurrent.LateReleaseIsNothing | ratelimit/lua/concurrent_release.lua:6-9 | a release after its lock was reclaimed changes no key |
| Concurrent.SweepReclaims | ratelimit/lua/concurrent_reclaim.lua:18-36 | the reclaim loop turns exactly the stale locks back into slots |
| Concurrent.Limiter.InitScript | ratelimit/lua/concurrent_init.lua:15-46 | in place: equals the initialization function, loop included |
| Concurrent.Limiter.AcquireScript | ratelimit/lua/concurrent_acquire.lua:8-17 | in place: equals the acquire function and reports the locks held |
| Concurrent.Limiter.ReleaseScript | ratelimit/lua/concurrent_release.lua:6-15 | in place: equals the release function |
| Concurrent.Limiter.ReclaimScript | ratelimit/lua/concurrent_reclaim.lua:18-36 | in place: equals the reclaim function |
| Iterators.SliceIterator.constructor | iterable.go:167-175 | an iterator at an offset has exactly the items from there on to come |
| Iterators.SliceIterator.Next | iterable.go:182-189 | advances over the first item to come, and says whether there was one |
| Iterators.SliceIterator.Cursor | iterable.go:191-193 | resuming at the cursor leaves the same items to come |
| Iterators.RangeFrom | iterable.go:204-235 | after i items of a range, the range from the i-th value on is what is left |
| Iterators.RangeHolds | iterable.go:221-227 | a value is in the range exactly when whole steps lead to it short of the end, for either sign of the step |
| Iterators.RangeIterator.constructor | iterable.go:204-213 | a range iterator has the range to come; a zero step counts as one |
| Iterators.RangeIterator.Next | iterable.go:221-231 | advances over the first value to come, and says whether there was one |
| Iterators.RangeIterator.Cursor | iterable.go:233-235 | resuming at the cursor leaves the same values to come |
| Iteration.Checkpoint.CheckBudgets | worker/iterable.go:224-267 | after an item: budgets, deadline and periodic save stop the run or store the cursor as specified |
| Iteration.Checkpoint.FinishRun | worker/iterable.go:285-325 | at the end: late cancellation, the final save and the deletion of the state |
| Iteration.Checkpoint.WorkOn | worker/iterable.go:185-268 | one pass of the loop: cancellation, shutdown, the handler's answer, then the budgets |
| Iteration.Checkpoint.Visit | worker/iterable.go:199-227 | one pass over an item adds it to the items passed exactly when the pass gets past it |
| Iteration.Checkpoint.Process | worker/iterable.go:117-326 | one run over a slice passes exactly the items from the stored cursor to where it stops, and stores and ends as specified |
| Iteration.Checkpoint.ProcessRange | worker/iterable.go:117-326 | the same for a range, whose stored cursor is a value: the run passes exactly the values from there to where it stops |
| Iteration.LoopMoves | worker/iterable.go:185-268 | a run only moves forward, stores no cursor beyond what it passed, and completes only at the end |
| Iteration.ResumesWhereItStopped | worker/iterable.go:397-410 | a run that is interrupted or fails on an item has stored exactly where it stopped |
| Iteration.BudgetIsKept | worker/iterable.go:229-237 | a run with an item budget passes at most that many items |
| Iteration.StopsInTime | worker/iterable.go:186-222 | a run passes nothing from the pass on that finds it cancelled or shut down, or whose item fails or stops it |
| Iteration.QuietPasses | worker/iterable.go:185-268 | after i undisturbed passes within the budget a run stands i items further on, with the cursor of the last tick stored |
| Iteration.FirstEventDecides | worker/iterable.go:185-268 | the first cancellation, shutdown, stop, failure, deadline, budget or failed save decides what a run has passed, stored and reports |
| Iteration.LastItemDecides | worker/iterable.go:285-325 | without any of them a run gets through all its items and its ending decides |
| Iteration.DeathKeepsLastSave | worker/iterable.go:248-266 | a run that dies has stored the cursor of its last tick |
| Iteration.QuietRunIsExact | worker/iterable.go:229-237 | an undisturbed run passes exactly its budget, or all items if they are fewer, and ends accordingly |
| Iteration.InterruptedRunsAreExact | worker/iterable.go:185-268 | any series of such runs passes each item once, in order, and all items when the last run completes |
| Iteration.NoneSkipped | worker/iterable.go:185-325 | with runs that die and saves that fail anywhere, no item before a passed one is skipped, and none at all once a run completes |

## Left out

- Redis key type errors, lifetimes of batch keys, and the migration of legacy JSON batch records inside the scripts.
- JSON encoding, callback arguments and job classes, the set of known queues, the set of dead batches, metrics.
- Hand-made or corrupted payloads, but for the stripping of markers by the fetch scripts.
- The second trust check that the worker makes after a fetch.
- Deletion of batch keys after a failed empty batch (`cleanupOrphanedBatch`).
- Persistence of iteration cancellation, which is not atomic in the source.
- User callbacks, and the execution and item counts of the iteration state.
- Iterator errors, which the built-in iterators do not have.
- 64-bit overflow of range iterators, rounding of Lua doubles, limiters with capacity below one.
- The bucket limiter, weighted queue choice, backoff formulas, bulk chunking, cron, encryption, heartbeats.
- Sequential.MutualExclusion: speaks of one queue; queues share neither lock nor semaphore.
- Links.LinksConsistent: assumes that reports to parents are not lost, which the source treats as best effort.
