# Agent runs: a verified model

The repository runs agent jobs behind a queue. The API creates a run document and publishes a job;
stateless workers take jobs from RabbitMQ, serialise the runs of a thread with a lock document in
MongoDB, claim a run by compare-and-set, and drive a loop of model turns and tool calls that appends
numbered events. A reaper resets runs whose worker has stopped making progress and republishes them.
Events reach the browser over SSE, merged from a backfill query, live messages and polls.

This project models that system in Dafny and proves what it keeps, over unbounded numbers of workers,
runs, threads, message copies, crashes and interleavings. `dafny verify dfyconfig.toml` checks all of it.

## How the model is built

- **Store, Mongo, Protocol, Cluster.** Each single-document database operation is one atomic step
  (`store.dfy` as functions on values, `mongo.dfy` as methods of a mutable object). `protocol.dfy` is the
  step machine: run documents, locks, event log, message copies (ready, in a delayed-republish timer, or at
  a handler), a program counter per handler, reapers, pending cancels and a clock. The adversary delivers,
  duplicates, redelivers a message under a live handler, crashes workers and reapers, and loses answers.
  `cluster.dfy` has the message handler, the reaper's pass and the API's two writing requests statement by
  statement, with any number of foreign steps at each await, proved to be paths of the step machine; so
  what is proved of all paths holds of the code. What each operation answers, or that it throws, is an input
  of these methods, as is a set of runs that the foreign steps spare; for a spared run their contracts say
  what becomes of its document, its lock, its messages and its events (`Cluster.Footprint`).
- **Guard, LostRun, OrphanedLock, Lease, Sequence, Exclusion.** The safety theorems. Those on the thread
  lock, on lost runs, on orphaned locks and on missing event numbers are exact: the property fails if and
  only if some step so far met a stated condition on the state it was taken in. The serial log, the lease
  theorem and the order of commits hold under hypotheses; `Exclusion` is a simpler sufficient condition for
  the lock.
- **Witness.** Concrete histories that break a conclusion when one clause of its hypothesis fails, each
  with the complete list of its faults in the contract.
- **RunLoop, Resume, MockModel, Rng.** The agent loop as an imperative class with a fault or crash point at
  every await, those of the catch block included, where an operation may throw before or after taking effect,
  proved equal to a specification of its effects; then resumption over any sequence of attempts that
  complete, throw, are aborted or die.
- **Stream, Client, Sse.** Event delivery from the server's merge to the browser's fold, and the wire format
  under arbitrary chunking.
- **Ordering, Rate, Pool.** The serialisation checker, the rate limiter and the warm container pool.

Times are integers. A run is identified by the pair (run id, thread id) that its job and its document share.

## Where the code and its documentation differ

The model follows the code. These statements of the documentation do not hold of it; a member below
shows each, with the exact condition where there is one.

- `docs/ARCHITECTURE.md` says that messages of one thread always process sequentially. The lock is
  re-entrant per run and released unconditionally. It protects the handlers that rely on it exactly as
  long as no step steals it: a handler's release or a reaper's unlock while another handler of the run
  relies on the lock, or a reset behind a handler that passed the guard and lost it
  (`Guard.GuardedIffNeverStolen`, `Guard.NoTwoRunsTogether`). A duplicate, a failed claim and the reaper's
  own recovery can each be the one cause of a theft (`Witness.DuplicateBreaksExclusion`,
  `FailedClaimBreaksExclusion`, `ReapBreaksExclusion`, `LateResetBreaksExclusion`).
- The ordering verifier is to confirm that runs of a thread do not interleave. It also fails on a recovery
  in which no two runs ever executed together, when another run of the thread is served between the crash
  and the resumption (`Witness.RecoveryMixesLog`).
- `docs/ARCHITECTURE.md` says the lock is released on a crash because the reaper cleans it. The reaper scans
  running runs only. The lock of a run that is not running, or yet to be published, depends on the run's
  messages and handlers and on a reaper already recovering it, and the step that takes the last of these
  kills it: exactly the locks so killed can be removed by no continuation of the system, and every other
  held lock by some (`OrphanedLock.DeadIffKilled`, `OrphanedLock.DeadIffNotFreeable`). A worker's death between
  ack and release is such a step, as is a release that fails, and a user's cancel of a run whose workers have
  died (`Witness.AckBeforeReleaseOrphansLock`, `FailedReleaseOrphansLock`, `CancelOrphansLock`). No run of that
  thread is executed again (`OrphanedLock.OrphanedThreadIsDead`).
- `idempotency.ts` promises no duplicate side effects. A tool runs once for its stored result and once more
  for each attempt that ran it without storing the result (`Resume.ToolRuns`): one that died between the two,
  or in which the tool or the emit of its result threw (`Resume.UnstoredIffCutOff`). The latter leaves the run
  to be repeated, although nothing died, when the status write of the catch block throws as well
  (`Resume.RejectedToolRunsAgain`). The `run_done` event carries no turn, is filed under turn 0, and so does
  not stop a second conclusion once there is a tool result (`Resume.FinishedRunIsConcludedAgain`).
- `emitEvent.ts` promises gap-free numbers. A number is missing if and only if a crash or a failed
  operation hit its emitter between taking and storing it (`Sequence.MissingIffLost`).
- The stream's Mongo poll is meant to cover whatever live delivery misses. It asks only above the high-water mark, so
  an event that a live message has overtaken, or that is committed at or below the mark, is never sent in that
  session (`Stream.CompleteIffNothingSkipped`, `Stream.LiveOvertakesStored`, `Stream.OutOfOrderCommitSkips`).
- The rate limiter is described as a sliding window of 60 requests per minute. It is a fixed window that starts
  with a request: 119 requests can pass within one minute, and no more (`Rate.BoundIsReached`, `Rate.RateBound`).
- The ordering verifier presents two checks. Its exit code is decided by the second alone
  (`Ordering.Verdict`). The first sees a resumed run only if it goes on at a strictly later time than that
  at which another began (`Ordering.OverlapIffResumesLater`), so equal timestamps can blind it.
- The pool is meant to be refilled after each warm claim. Each failed refill shrinks it for good
  (`Pool.WarmAgainIff`).

## Model

| member | source | states |
|---|---|---|
| Mongo.Collections.TryAcquireThread | backend/src/lib/threadGuard.ts:17-33 | the lock is granted exactly if the thread is free or already locked by this run, names this run exactly if granted, and is untouched otherwise |
| Mongo.Collections.ReleaseThread | backend/src/lib/threadGuard.ts:36-39 | the lock is deleted exactly if this run holds it, and no other |
| Mongo.Collections.CreateRun | backend/src/lib/createRun.ts:14-26 | a free id becomes a pending run that nobody has claimed, with counter 0; a taken id is refused and nothing changes |
| Mongo.Collections.ClaimRun | backend/src/lib/claimRun.ts:8-24 | succeeds exactly if the run was pending, and then makes it running under this worker, touched now; else changes nothing |
| Mongo.Collections.FinishRun | backend/src/lib/claimRun.ts:27-38 | writes the status whatever it was, touching updatedAt, and only that run |
| Mongo.Collections.AllocateSeq | backend/src/lib/emitEvent.ts:36-44 | returns the run's next number and stores it with the given updatedAt, leaving status and worker; nothing for an unknown run |
| Mongo.Collections.InsertEvent | backend/src/lib/emitEvent.ts:46-56 | appends the event unless its (run, number) pair is taken |
| Mongo.Collections.FindStale | backend/src/lib/reaper.ts:25-30 | exactly the running runs last touched before the cutoff |
| Mongo.Collections.ResetStale | backend/src/lib/reaper.ts:38-42 | resets exactly if the run is still running and stale, to a pending run without a worker, touched now, and reports whether it did |
| Cluster.System.TryAcquireThread | backend/src/worker.ts:106 | whatever happens during the await, one lock request of the step machine, granted exactly on a free or own lock; the process dies exactly if the request throws |
| Cluster.System.Requeue | backend/src/worker.ts:107-112 | the refused message is settled once and leaves an armed timer, with no lock released; exactly if the broker has taken it back, the ack throws first and the process dies |
| Cluster.System.Receive | backend/src/worker.ts:82-107 | delivery up to the answer of the lock request, or the death of the process if that throws, settling and releasing nothing |
| Cluster.System.ClaimRun | backend/src/worker.ts:115-120 | one claim step, to the nack exactly if it throws; otherwise a pending run is running under this worker and any other is dropped |
| Cluster.System.ClaimNow | backend/src/lib/claimRun.ts:8-24 | the same without the await: a claim that answers makes a pending run running under this worker and its handler enter the loop, and drops any other run untouched |
| Cluster.System.AllocateSeq | backend/src/lib/emitEvent.ts:35-44 | one allocation step, its answer lost exactly if it throws; otherwise the handler holds the next number and the counter is that number |
| Cluster.System.InsertEvent | backend/src/lib/emitEvent.ts:46-56 | one insert step, appending the number, or its failure; the unique index never rejects it, and an answer may be lost after the event was stored |
| Cluster.System.LoseStatus | backend/src/lib/runLoop.ts:136-141 | a status write that takes effect and then throws leaves the status written and the handler inside runLoop |
| Cluster.System.EmitEvent | backend/src/lib/emitEvent.ts:31-68 | an event is a path of allocation and insert with others free in between, and fails exactly if one of them throws; otherwise exactly the next number is appended |
| Cluster.System.Return | backend/src/lib/runLoop.ts:136-143 | the loop's last step writes the status it ends with and returns, or lets an exception out, as the input says |
| Cluster.System.RunLoop | backend/src/worker.ts:135-142 | any number of events and of status writes whose answer is lost, and then the status or the exception; with no throw the events are numbered on from the counter and the document carries the status |
| Cluster.System.Attempt | backend/src/worker.ts:114-142 | the try block ends unclaimed, with the loop's status, or with an exception if the claim or the loop threw one, nothing settled or released so far |
| Cluster.System.Settle | backend/src/worker.ts:117-119 | ack for an unclaimable or finished message, otherwise nack, or a swallowed failure after a redelivery; settled exactly once, and an ack leaves no copy, a nack exactly one new one |
| Cluster.System.SwallowNack | backend/src/worker.ts:156 | once the broker has taken the message back, ack and nack throw and no copy is added |
| Cluster.System.Ack | backend/src/worker.ts:118 | an unclaimable or finished message leaves no copy behind, and its lock is still to be released |
| Cluster.System.Nack | backend/src/worker.ts:151-156 | a failed message that its handler still holds goes back as one new ready copy before its lock is released |
| Cluster.System.ReleaseThread | backend/src/worker.ts:157-160 | the finally block reaches its release once, failing exactly if it throws without effect, and the handler is gone; the lock is gone if the run held it |
| Cluster.System.Process | backend/src/worker.ts:114-160 | after a granted lock: exactly one settlement and exactly one release, on every way through try, catch and finally |
| Cluster.System.Consume | backend/src/worker.ts:82-161 | the whole message handler is a path of the step machine; it dies only if the lock request throws or the broker took its message back, and otherwise settles its message exactly once, and either reaches the release exactly once or leaves the message in an armed timer; if nothing throws and nobody else touches the run, a pending run on a free thread is claimed, executed and given the loop's status, leaving no copy exactly if done and one ready copy otherwise, a run that is not pending is acked and untouched, and a busy thread leaves a timer |
| Cluster.System.ScanNow | backend/src/lib/reaper.ts:25-30 | the cutoff is a lease before now and the scan holds exactly the stale runs |
| Cluster.System.ResetNow | backend/src/lib/reaper.ts:38-42 | the reset takes effect only on a run that is still stale, which is then pending |
| Cluster.System.UnlockNow | backend/src/lib/reaper.ts:43-44 | afterwards the reset run holds no lock |
| Cluster.System.RepublishNow | backend/src/lib/reaper.ts:45-47 | exactly one new ready copy of the job |
| Cluster.System.ReapRun | backend/src/lib/reaper.ts:36-49 | one stale run: reset, unlock and republish as separate steps; the pass ends there only if one throws, and otherwise the run is pending, without its lock and with one more message |
| Cluster.System.ReapOnce | backend/src/lib/reaper.ts:23-54 | a reaper pass is a path of the step machine, other reapers included; its count is the number of jobs it republished; it is given up only if an operation on a stale run or the connection fails; otherwise every stale run that others spare is recovered |
| Cluster.System.CreateNow | backend/src/lib/createRun.ts:7-27 | the insert succeeds exactly if the id is free, and the run is then pending and unpublished |
| Cluster.System.PublishNow | backend/src/lib/queue.ts:95-108 | exactly one new ready copy of the job |
| Cluster.System.PostRun | backend/src/api/server.ts:51-63 | POST /runs is a path of the step machine that publishes exactly if it answers 202; it answers 503 only on a throw or a taken id, and one after the insert, also one whose answer was lost, leaves a pending run without a message |
| Cluster.System.CancelRun | backend/src/api/server.ts:66-88 | the cancel request is a path of the step machine; 404 means no such run, 409 a terminal one, 200 that it is now marked cancelled, whatever happened since the read, and 503 only that the read or the write threw, the latter perhaps with its effect |
| Protocol.StatusEdgeStep | backend/src/lib/claimRun.ts:11-37 | a run's status moves only from pending to running by a claim, from running to pending by a reset, and from anything to terminal |
| Lease.AtMostOneExecutor | backend/src/lib/reaper.ts:25-41 | if every live executor's document has been fresh, a run has at most one handler inside runLoop, and a running document names its worker, despite duplicates, crashes and reapers with old cutoffs |
| Lease.HeartbeatKeepsLease | backend/src/lib/emitEvent.ts:33-40 | if at every state the latest claim or number of each executor itself was stamped at most a lease ago, the documents are fresh, so that theorem applies: numbering an event is the heartbeat |
| Lease.ClaimsMatchResets | backend/src/lib/claimRun.ts:11-37 | over every history, claims minus resets is 1 while running, 0 while pending, 0 or 1 when terminal |
| Lease.TerminalForever | backend/src/api/server.ts:70-83 | done, failed and cancelled are never left, although finish and cancel overwrite each other |
| LostRun.RecoverableIffNotDeprived | backend/src/worker.ts:86-160 | run j has always had a message, or a reaper holding it, while waiting if and only if no step took its last one: a crash leaving nothing of it but armed timers, or a reaper's death after the reset |
| LostRun.NoLostRun | backend/src/worker.ts:86-160 | then a published unfinished run is running or has a copy ready, in use, in a timer or with a reaper |
| LostRun.DeprivedInWindow | backend/src/lib/queue.ts:102-104 | a recoverable run can only be deprived by a crash with its republish armed, or by a reaper's death between reset and republish |
| LostRun.LostForever | backend/src/lib/reaper.ts:27-50 | once a pending, published run has no message, no handler that could still claim it or give its message back, and no reaper, no claim of it ever takes effect again; it can only become terminal |
| OrphanedLock.DeadStep | backend/src/worker.ts:105-160 | one step leaves a lock dead if and only if it was dead before, or the step takes the last message, handler or reaper that would come to it, or cancels a run of which only the running status was left |
| OrphanedLock.DeadIffKilled | backend/src/worker.ts:105-160 | over every history a lock is dead if and only if some step so far killed it in that way |
| OrphanedLock.DeadIffNotFreeable | backend/src/lib/reaper.ts:23-54 | in every reachable state a held lock is dead if and only if no continuation of the system removes it |
| OrphanedLock.NoOrphanedLock | backend/src/worker.ts:147-159 | while no step has killed a thread's lock, the run that holds it has a message or a handler that can move, is running, is being recovered or is yet to be published, and some continuation removes the lock |
| OrphanedLock.KilledInWindow | backend/src/worker.ts:107-110 | a worker's death can kill a lock only with a republish of its run armed, at a handler that has settled its message, or at one whose message the broker took back |
| OrphanedLock.OrphanedThreadIsDead | backend/src/lib/reaper.ts:42-46 | once a lock is dead and no handler of its thread is past the lock request, the lock stays and no run of the thread is ever executed again |
| Guard.GuardedStep | backend/src/lib/threadGuard.ts:17-39 | a step leaves a handler without the lock it relies on if and only if it steals it |
| Guard.GuardedIffNeverStolen | backend/src/lib/threadGuard.ts:17-39 | duplicates, redeliveries, resets, failed claims and crashes allowed: every handler relying on its thread's lock has always had it if and only if no step stole one |
| Guard.NoTwoRunsTogether | backend/src/worker.ts:105-160 | without a theft, two handlers of a thread inside runLoop serve the same run, and are one handler if the lease hypothesis held |
| Guard.SerialThreadLog | backend/src/lib/runLoop.ts:52-137 | without a theft and without the reset of a started run, a thread's events are run-contiguous in commit order |
| Exclusion.MutualExclusion | backend/src/worker.ts:105-160 | with no duplicate, reset or effectless failed claim: also one copy per job, each executor's lock names its run, and no two handlers of a thread are inside runLoop together |
| Exclusion.OrderlyStealsNothing | backend/src/worker.ts:105-160 | such histories contain no theft and no reset of a started run |
| Exclusion.SerialThreadLog | backend/src/lib/runLoop.ts:52-137 | and their thread logs are run-contiguous in commit order |
| Sequence.NumbersNeverCollide | backend/src/lib/emitEvent.ts:31-56 | for any interleaving of emitters and crashes, stored and in-flight numbers are distinct and within 1..lastEventSeq, so the unique insert always succeeds |
| Sequence.MissingIffLost | backend/src/lib/emitEvent.ts:31-56 | a number is neither stored nor in flight if and only if a step of the history lost it |
| Sequence.CommitOrderIsSequenceOrder | backend/src/lib/emitEvent.ts:35-56 | under the lease hypothesis each run's events are committed in strictly increasing order, through crashes and takeovers |
| Sequence.GapFree | backend/src/lib/emitEvent.ts:28-29 | with also no loss, the committed numbers are exactly 1, 2, 3, ... in order, and the counter is the last one or one in flight |
| Witness.DuplicateBreaksExclusion | backend/src/worker.ts:115-158 | two runs of a thread execute together in a history whose only fault is one duplicate delivery and whose only theft is its handler's release |
| Witness.FailedClaimBreaksExclusion | backend/src/worker.ts:154-158 | so they do when the only fault is one claim that throws without effect, and the only theft the release that follows its nack |
| Witness.ReapBreaksExclusion | backend/src/lib/reaper.ts:38-44 | so they do when the only faults are one crash and one reset, the lease hypothesis never fails, and the only theft is the reaper's unlock |
| Witness.LateResetBreaksExclusion | backend/src/lib/reaper.ts:38-42 | and so they do when the only theft is the reset itself, behind a handler that passed the guard and lost the lock |
| Witness.LateHeartbeatBreaksLease | backend/src/lib/reaper.ts:25-41 | one run gets two executors, the only fault being one reset of a live worker's run |
| Witness.LateHeartbeatReorders | backend/src/lib/emitEvent.ts:35-56 | and its events are committed as numbers 2, 1 |
| Witness.TimerCrashLosesRun | backend/src/lib/queue.ts:102-104 | a run is lost for good, the only fault being one crash with its republish armed |
| Witness.ReaperDeathLosesRun | backend/src/lib/reaper.ts:42-46 | a run is lost for good, the faults being a worker's crash, a reset, and the reaper's death right after it |
| Witness.AckBeforeReleaseOrphansLock | backend/src/worker.ts:148-158 | a thread is dead for ever, the only fault being one crash between ack and release |
| Witness.FailedReleaseOrphansLock | backend/src/worker.ts:158 | the same for one release that fails after the ack |
| Witness.CancelOrphansLock | backend/src/api/server.ts:79-83 | the same for a user's cancel, after two crashes that left the lock removable by the reaper |
| Witness.TheftMixesLog | backend/src/scripts/verifyOrdering.ts:72-85 | a thread's log shows A,B,A, the only fault being one duplicate |
| Witness.RecoveryMixesLog | backend/src/scripts/verifyOrdering.ts:72-85 | a thread's log shows A,B,A with no lock stolen, the only faults being one crash and one reset of the started run |
| RunLoop.Execution.ToolTurn | backend/src/lib/runLoop.ts:103-129 | a tool turn: announced, a container claimed only if none is held, tool run, result stored, up to any fault |
| RunLoop.Execution.Provide | backend/src/lib/runLoop.ts:111-114 | a container is claimed exactly if a sandbox is configured and none is held |
| RunLoop.Execution.Think | backend/src/lib/runLoop.ts:86-101 | model_turn is emitted before the model is asked, and the turn leaves the loop exactly on a conclusion |
| RunLoop.Execution.OneTurn | backend/src/lib/runLoop.ts:73-129 | a turn that is not skipped: it leaves the loop exactly on an abort or a conclusion, with failed on a timeout, cancelled on a cancel and done on a conclusion, and otherwise leaves exactly the rest of the loop's effects to come |
| RunLoop.Execution.TryTurns | backend/src/lib/runLoop.ts:62-137 | the try block takes its effects in order from the specified list, up to its end or a fault |
| RunLoop.Execution.CatchAndFinally | backend/src/lib/runLoop.ts:138-147 | after a throw the catch block's effects follow, a held container is released last in every case, and an exception escapes exactly if the catch block's status write threw |
| RunLoop.Execution.Catch | backend/src/lib/runLoop.ts:138-142 | run_failed, unless that event is lost and swallowed, and the failed status, unless its write throws without effect, follow what was done before |
| RunLoop.Execution.ReleaseQuietly | backend/src/lib/runLoop.ts:143-147 | the release is the last effect and leaves the status alone |
| RunLoop.Execution.RunLoop | backend/src/lib/runLoop.ts:47-148 | whatever throws, before or after taking effect (an operation of the loop, the read of completed turns, either operation of the catch block), and wherever the process dies, the effects are exactly the specified attempt cut at the crash, log and status are what they make of the old ones, and it rejects exactly when run_started, the read or the catch block's status write threw; a normal return reports the stored status, which is failed after a throw, and otherwise failed exactly if a turn that is reached times out, cancelled exactly if one is cancelled, and done if not, the last event saying the same |
| RunLoop.LookupMeans | backend/src/lib/idempotency.ts:24-47 | in any log a turn counts as executed exactly if its result is stored, or, for turn 0, if a run_done precedes every result of turn 0, which is when the run is recognised as finished |
| Resume.SoundMeans | backend/src/lib/idempotency.ts:24-39 | in a sound log the tool results are turns 0, 1, ..., k-1 once each in order, with the undisturbed run's payloads, and all run_done events are its final event |
| Resume.HistoryIsSound | backend/src/lib/runLoop.ts:47-148 | every log left by any sequence of attempts, whatever throws in them and wherever they are aborted or die, is sound |
| Resume.Lookup | backend/src/lib/idempotency.ts:41-47 | in such a log exactly the turns with a stored result are found, and a run_done only when there is no result |
| Resume.ScanResumesAtMaximum | backend/src/lib/runLoop.ts:59-71 | with a tool result stored, the membership scan skips exactly the turns below the maximum-based resume point |
| Resume.AttemptEvents | backend/src/lib/runLoop.ts:52-142 | an attempt emits run_started, then from the first turn without a result the model_turn, tool_call, tool_result triples and an ending: run_done, or run_failed or run_cancelled at the turn of an abort; a finished log without results gets run_started alone; a throw or a crash leaves a prefix, after a throw perhaps with a run_failed |
| Resume.CrashResumeRefines | backend/src/lib/runLoop.ts:57-137 | after any attempts that complete, throw, are aborted or die, the tool results are a prefix of the undisturbed run's, all of them after an attempt that nothing disturbed, and every run_done equals its own |
| Resume.ToolRuns | backend/src/lib/runLoop.ts:117-129 | over all such attempts the tool of a turn runs once for its stored result plus once per attempt that ran it and did not store the result |
| Resume.UnstoredIffCutOff | backend/src/lib/runLoop.ts:117-141 | an attempt is one of these if and only if its loop ends right after running the tool, by a crash or a throw, and no attempt runs a tool twice |
| Resume.RejectedToolRunsAgain | backend/src/lib/runLoop.ts:124-141 | storing a result throws, then the catch block's status write: the run is left running, no process died, and the next attempt runs the tool again |
| Resume.FinishedRunIsConcludedAgain | backend/src/lib/idempotency.ts:33-38 | an undisturbed attempt concludes a finished run again, with the same event, if and only if the log holds a tool result or the cap is below one turn |
| Resume.ContainersAreReleased | backend/src/lib/runLoop.ts:111-147 | an attempt that returns or rejects, whatever threw, claims at most one container and releases it exactly once, as its last effect |
| Resume.RejectedAfterRelease | backend/src/lib/runLoop.ts:138-147 | the exit the finally block is for: tool and status write both throw while a container is held, the exception escapes, and the container is released |
| MockModel.SeededRunResumes | backend/src/mock/mockModel.ts:17-57 | a seeded run, being a function of (seed, run, turn), resumes after any attempts to the same tool results and the same conclusion, and has a tool result if it has a turn |
| MockModel.Ask | backend/src/mock/mockModel.ts:17-57 | seeding a generator from (seed, run, turn) and taking its second and third draw gives the answer, a fixed function of these three |
| MockModel.StopsWhen | backend/src/mock/mockModel.ts:32-56 | never on the first turn, later exactly if the roll lies below one in avgTurns of the range, with the reply whose fifth the pick lies in; otherwise noop exactly if the pick lies below the tool-call probability |
| MockModel.DecimalReads | backend/src/lib/rng.ts:7-10 | a turn number is joined as decimal digits that read back as it |
| MockModel.ThreeDraws | backend/src/mock/mockModel.ts:27-46 | the roll and the pick are the second and third draw of the turn's sequence, after the delay |
| Rng.HashSeed | backend/src/lib/rng.ts:7-16 | the loop computes the 32-bit fold of the joined parts |
| Rng.HashOfA | backend/src/lib/rng.ts:7-16 | a published answer of 32-bit FNV-1a: the hash of the letter a |
| Rng.JoinInjective | backend/src/lib/rng.ts:10 | joining is unambiguous for equally many parts without the separator |
| Rng.OneCharacterMatters | backend/src/lib/rng.ts:7-16 | strings that differ in exactly one character have different hashes |
| Rng.Mulberry32.Next | backend/src/lib/rng.ts:18-27 | the n-th call returns the n-th draw of the seed's sequence, a number below 2^32 |
| Rng.ImulIsProduct | backend/src/lib/rng.ts:23-24 | the bitwise multiplication used by the generator is the product modulo 2^32 |
| Rng.StatesDoNotRepeat | backend/src/lib/rng.ts:18-27 | no state repeats within 2^32 draws |
| Rng.RandIntRange | backend/src/lib/rng.ts:39-41 | a bounded draw stays within integer bounds |
| Rng.RandIntHits | backend/src/lib/rng.ts:39-41 | each value of a range of at most 2^32 is drawn |
| Stream.Handler.Send | backend/src/api/server.ts:110-116 | an event is sent exactly if the stream is open and it lies above the high-water mark, which then becomes its number |
| Stream.Handler.SendAll | backend/src/api/server.ts:120-122 | a result set is sent as by one send after the other |
| Stream.Handler.PollAnswer | backend/src/api/server.ts:145-155 | a poll's answer is sent, and closes the stream exactly if it holds a run_done, run_failed or run_cancelled event |
| Stream.Handler.Cleanup | backend/src/api/server.ts:157-163 | the stream is closed and nothing else changes |
| Stream.SentAscends | backend/src/api/server.ts:107-155 | under every interleaving of backfill, live messages, overlapping polls and failures, sent numbers strictly increase, lie above lastSeq and are stored |
| Stream.CompleteIffNothingSkipped | backend/src/api/server.ts:107-155 | whatever the commit order, no stored event in (lastSeq, sentSeq] has been skipped if and only if no step raised the mark past a stored unsent event or committed one at or below it |
| Stream.CompleteIffNotOvertaken | backend/src/api/server.ts:107-155 | with an in-order emitter nothing has been skipped if and only if no live message overtook an unsent event |
| Stream.SessionSendsSlice | backend/src/api/server.ts:118-155 | a session never overtaken has sent a gapless ordered slice of the log |
| Stream.ClosedIffEnded | backend/src/api/server.ts:145-164 | in every session the stream is closed if and only if the client went or a poll was answered with a run_done, run_failed or run_cancelled |
| Stream.ClosedIsDelivered | backend/src/api/server.ts:145-163 | a stream the server closed, with nothing skipped, has sent such an event and every stored event between lastSeq and it |
| Stream.LiveOvertakesStored | backend/src/api/server.ts:118-142 | an event committed between the backfill query and the subscription can be lost |
| Stream.OutOfOrderCommitSkips | backend/src/api/server.ts:149-150 | two emitters that commit out of order lose an event without any live message |
| Client.ViewAgreesWithLog | frontend/app/page.tsx:84-113 | after any overlapping reconnects the message equals the plain fold over the listened-to events up to its number, and shows what Client.FoldShows says |
| Client.FoldShows | frontend/app/page.tsx:95-104 | its status is running, done or failed as the last run_started, run_done or run_failed says, and waiting before any; its text the summary or the error of the last run_done or run_failed; its worker the last that named itself; its steps exactly the model_turn, tool_call and tool_result events, in order, once each |
| Client.ArrivalsAreHeeded | frontend/app/page.tsx:90-113 | the page listens until a run_done or run_failed arrives, and its number has reached every listened-to event that arrived, or the final one |
| Client.StreamToPage | frontend/app/page.tsx:90-113 | from the server's log to the page: a session not overtaken, broken off anywhere, leaves the fold of the stored log |
| Client.VisitsToPage | frontend/app/page.tsx:84-113 | the same over any number of reconnects to a growing log: the page shows the fold of the log as stored at the end |
| Client.CancelledIsInvisible | frontend/app/page.tsx:106-113 | as long as the log holds no run_done or run_failed, a run_cancelled included, the page keeps listening and shows the run as waiting or running, however often it reconnects |
| Client.CancelledChangesNothing | frontend/app/page.tsx:111-113 | a run_cancelled event leaves the page as it was |
| Sse.SplitIncrementally | backend/src/loadtest/harness.ts:83-85 | splitting chunk by chunk with a carried rest gives the frames of the whole text |
| Sse.PreambleIsIgnored | backend/src/api/server.ts:105 | the retry preamble is a frame that yields no event |
| Sse.WireParses | backend/src/api/server.ts:113-115 | the text written for any events and notices parses to exactly the (id, event) pairs sent |
| Sse.NamesAreListened | frontend/app/page.tsx:111-113 | the event names the server writes are those of the page's listeners, kind by kind, all different, and only run_cancelled has no listener |
| Sse.PayloadIsRead | backend/src/api/server.ts:113-115 | the data line of a frame gives back the serialised document |
| Sse.TerminalNames | backend/src/loadtest/harness.ts:91-94 | the reader takes exactly the run_done and run_failed frames as terminal |
| Sse.Reader.Frame | backend/src/loadtest/harness.ts:86-94 | a frame adds its parsed event if it has one, raises the resume point to its id if larger, and ends the stream only on a terminal event |
| Sse.Reader.Frames | backend/src/loadtest/harness.ts:86-99 | the complete frames of a chunk are taken in order up to the first terminal one, and the resume point is the largest id |
| Sse.Reader.Read | backend/src/loadtest/harness.ts:79-104 | for any chunking the reader sees the parse of the whole text up to the first terminal event, and is terminal exactly if there is one |
| Sse.TerminalSent | backend/src/loadtest/harness.ts:91-94 | a terminal event is parsed exactly when a run_done or run_failed was sent |
| Sse.Reader.RoundTrip | backend/src/loadtest/harness.ts:79-104 | the incremental reader on the server's text, cut anywhere: it reads exactly the pairs sent, in order, up to the first terminal event, is terminal exactly if one was sent, and resumes from the largest id read |
| Ordering.BuildWindows | backend/src/scripts/verifyOrdering.ts:36-47 | one window per run, in order of first appearance, from its first to its last event, with its count and whether it finished |
| Ordering.AddEvent | backend/src/scripts/verifyOrdering.ts:38-46 | one more event opens its run's window or extends it; every other window still summarises its run |
| Ordering.StartsAscend | backend/src/scripts/verifyOrdering.ts:49 | on a time-sorted log the windows come out start-sorted, each with start no later than end; the sort moves nothing |
| Ordering.Overlaps | backend/src/scripts/verifyOrdering.ts:58-70 | comparing neighbours reports an overlap if and only if some earlier window ends after a later one starts |
| Ordering.Resumes | backend/src/scripts/verifyOrdering.ts:72-85 | the seen-set loop reports interleaving if and only if some run's events resume after another's |
| Ordering.OverlapResumes | backend/src/scripts/verifyOrdering.ts:58-85 | an overlap always means a resumed run |
| Ordering.OverlapIffResumesLater | backend/src/scripts/verifyOrdering.ts:58-70 | two windows overlap if and only if some run has events on both sides of the first event of another, the later one at a strictly later time |
| Ordering.ResumedRunOverlaps | backend/src/scripts/verifyOrdering.ts:58-85 | with distinct timestamps a resumed run always shows as an overlap |
| Ordering.TiesHideResumption | backend/src/scripts/verifyOrdering.ts:58-70 | with equal timestamps a resumed run can pass the overlap check |
| Ordering.Verdict | backend/src/scripts/verifyOrdering.ts:29-93 | the exit code is 1 if and only if there is no event or a run resumed, and the printed overlap verdict fails if and only if a run resumed at a strictly later time |
| Rate.RateLimiter.Check | backend/src/lib/rateLimiter.ts:33-52 | the window left behind (a new one, or one more in the old), the answer that goes with it (allowed, remaining, resetAt), and other keys untouched |
| Rate.RateLimiter.Cleanup | backend/src/lib/rateLimiter.ts:54-61 | exactly the expired windows are removed |
| Rate.RemainingMeans | backend/src/lib/rateLimiter.ts:37-51 | up to resetAt exactly `remaining` more checks of the key pass, and the first one later opens a new window |
| Rate.CleanupIsInvisible | backend/src/lib/rateLimiter.ts:54-61 | cleanups interleaved anywhere change no check's answer |
| Rate.RateBound | backend/src/lib/rateLimiter.ts:33-52 | a closed interval of n windows, n >= 1, lets through at most (n + 1) limits less one request per key |
| Rate.BoundIsReached | backend/src/lib/rateLimiter.ts:33-52 | and that many do pass, for every limit and every n up to the window's length in milliseconds |
| Pool.DockerOrchestrator.constructor | backend/src/sandbox/orchestrator.ts:39-44 | a started pool is full and its gauge exact |
| Pool.DockerOrchestrator.BeginRefill | backend/src/sandbox/orchestrator.ts:83-85 | a boot is started only while pool and boots under way fall short of the size |
| Pool.DockerOrchestrator.EndRefill | backend/src/sandbox/orchestrator.ts:86-94 | a settled boot leaves the pool one larger or one short for good, with the gauge exact |
| Pool.DockerOrchestrator.BeginClaim | backend/src/sandbox/orchestrator.ts:64-73 | a warm claim takes the last container and starts a refill; an empty pool starts a cold boot |
| Pool.DockerOrchestrator.EndClaim | backend/src/sandbox/orchestrator.ts:74-80 | a cold boot hands its container straight to the claim, or fails it |
| Pool.DockerOrchestrator.ClaimContainer | backend/src/sandbox/orchestrator.ts:64-81 | with any other claims and boots during its await, a claim is a path of the pool's steps and returns the container it was handed |
| Pool.PoolFromInit | backend/src/sandbox/orchestrator.ts:39-95 | over every run, pool + boots under way + failed refills is the size, the gauge equals the pool, and each booted container is in exactly one place once |
| Pool.ClaimsAreCounted | backend/src/sandbox/orchestrator.ts:64-75 | over every history the warm and cold counters are the numbers of claims that met a container in the pool, and none |
| Pool.NeverHandedTwice | backend/src/sandbox/orchestrator.ts:64-81 | no container is handed to two claims, or is still in the pool after being handed out |
| Pool.EveryWarmClaimRefills | backend/src/sandbox/orchestrator.ts:83-84 | the guard at the head of refill never fires |
| Pool.WarmAgainIff | backend/src/sandbox/orchestrator.ts:83-95 | a warm claim is possible again exactly when fewer refills have failed than the pool has places |

## Left out

- Liveness and wall-clock latency: the guard can requeue a job as long as its thread is busy.
- FIFO order of the runs of a thread: the delayed republish does not keep it.
- A database write still in flight when its process crashes and applied afterwards; a crash here falls between operations.
- Rejected jobs that do not parse (acked and dropped) and the nack of new messages during shutdown.
- Graceful shutdown (`backend/src/lib/gracefulShutdown.ts`) and reconnecting with a fresh channel and handler.
- `ResilientPublisher` and connection backoff: a publish succeeds or throws.
- Client retries of a POST /runs that answered 503: the stranded run stays pending and unpublished.
- The cancel poll and the timeout timer: an abort is an input of each turn in `RunLoop`.
- A sandbox claim of `runLoop` that throws after a container was booted for it: in `RunLoop` a throwing claim hands over none.
- An ack or nack on a channel opened after a reconnect with the old channel's delivery tag.
- Runs without a seed, and publishers that give the job a seed the run document lacks.
- The ordering verifier's sort by (createdAt, seq) of each worker's own clock: the serial-log theorems use commit order, which skewed clocks or equal timestamps of different runs can permute.
- A planned mid-run disconnect of the load harness: `Sse.Reader` is one connection.
- `Number()` of an id that is not decimal digits: such a frame is dropped by the model's reader.
- The payload's JSON text: an opaque string without line breaks.
- The output mix of mulberry32 is transcribed: what is characterised is its multiplication, its state sequence and the ranges drawn from it.
- Rounding of floating-point draws: a draw is a numerator over 2^32, probabilities are reals.
- Model and tool delays, and the tool's container commands.
- Claims made while `init()` is still booting, and an `init()` whose boots fail.
- The HTTP headers of the rate limiter, negative window lengths, and clocks that run backwards.
- Heartbeats, inspectors, metrics, charts, configuration and page rendering.
