# Orchlink broker, journal, follower, checkpoint and goal loop: a verified model

Orchlink is a message broker between a lead agent and worker agents. This project models five connected parts of it
and proves what they guarantee over whole runs:

- **The broker's store**: one mutable record of messages, task and talk jobs, leases, results, waiting callers, sessions
  and telemetry. Every call first sweeps expired sessions and timed-out messages, then acts; some calls raise after
  they have already changed state. `BrokerState` and `BrokerOps` say what each call does, as a function of the state it
  finds, on every exit. `BrokerInvariants`, `BrokerSteps`, `BrokerActs`, `BrokerCover`, `BrokerOutcomes` and
  `BrokerRuns` prove the guarantees; `BrokerAnswers`, `BrokerCalls` and `BrokerClock` say in their
  callers' words what every call answers and stores, and when; `BrokerWakes` and `BrokerLate` say whom a call wakes and what
  can still change after work has ended. `BrokerStore` is the store as the object it is, with its dictionaries and loops,
  proved to do exactly what `BrokerOps` says.
- **The service and its checkpoint**: each lease transition is also written to a small ordered file. `Checkpoint` is
  that file; `Service`, `ServiceNames` and `ServiceAgreement` prove that it agrees with the store on all live leases;
  `ServiceSteps` proves it again with each call's store change and checkpoint write as separate steps; `ServiceRecords`
  says what is on record of work that ended; `ServiceObject` is the service object.
- **The bounded transcript and its follower**: `Transcript` is the per-task event log with its two caps; `Follower` is
  the polling client and the protocol between the two.
- **The JSONL journal**: `Journal` is the file with its torn tails, repair and compaction; `JournalLock` is the
  re-entrant lock that orders its records.
- **Goal Mode**: `Goal` is the bounded verification loop over a dependency graph of acceptance criteria; `GoalChecks`
  proves that every approval is earned, round by round; `GoalRunner` is the runner object.

`Lifecycle` and `Jobs` hold the job lifecycle they share: a search over any transition table, and its closed form on
the real one. `Basics` has two shared value types.

How to read it: a method of a class that stands for a source class ensures that the object's new value equals a function of
its old one; the lemmas are about that function. Times are integers in milliseconds, an operation happens at one
instant, and an empty id stands for an absent one. Whole runs are sequences of calls of any kind, with any arguments.

Some promises hold only under a condition; the condition is part of the theorem, and it is exact:

- acquiring a session keeps busy work covered except when it silently replaces another agent's *active* session while
  that agent has busy work (`BrokerCover.AcquireKeepsCoverIff`, `BrokerRuns.TakenOverSessionOrphansWork`);
- a tear that loses only a record's final newline makes the next record unreadable at the following start, shorter tears
  do not (`Journal.NextRecordSurvivesIffShorterTear`); an append that fails part-way while the process lives on costs
  all records up to the next compaction, unless it left nothing or the whole line
  (`Journal.RecordsSurviveFailedAppendIff`);
- a worker event with the retention notice's kind and text is taken for the store's marker: a follower still ends at the
  last retained event unless that event is such an imitation or 200 of them follow each other
  (`Follower.FollowerCatchesUpIff`), and a mark may fall one short of the event it announces (`Follower.MarksAreExact`),
  never of what was skipped (`Follower.FollowerIsSafe`);
- an ended message changes again, and a closed conversation opens again, by exactly the calls
  `BrokerLate.EndedMessageChangesIff` and `BrokerLate.ClosedConversationReopensIff` name;
- a goal whose criteria are all verified still stops at the cap when it may take no step at all (`Goal.WorkEndsDoneIff`).

The agreement of store and checkpoint is proved for lawful runs (`ServiceNames.Lawful`), in which

- all calls are for one project, because the checkpoint is keyed by bare task ids
  (`ServiceAgreement.ProjectsShareAnEntry`);
- task ids name nothing else, and a message of another kind than a task message names only tasks that exist: a cancel is
  recorded under whatever id it is given, and a second release of a session settles all it lists once more
  (`ServiceAgreement.CancelAgreesIff`, `ServiceAgreement.SecondReleaseAgreesIff`);
- agents that may come to hold a lease have no blanks around their names, which the service strips before it records a
  lease (`ServiceAgreement.DeliverAgreesIff`, `ServiceAgreement.ReclaimAgreesIff`);
- a lease call gives the job's own id, under which it is recorded (`ServiceAgreement.HeartbeatAgreesIff`,
  `ServiceAgreement.ReclaimAgreesIff`);
- a reply is faithful: a chat close, which does not end a task, does not come for a leased one, and a reply for a task
  without a job makes no claim (`ServiceAgreement.ReplyAgreesIff`);
- status updates go to running only, as the route at src/orchlink/broker/main.py line 313 enforces, and no checkpoint
  write fails.

The lemma named with each item says, for one call, exactly when the agreement survives it. When the two halves of a call
may be apart, a reply must moreover leave its task finished (`ServiceSteps.LateSettlementAgreesIff`).

## Model

| member | source | states |
|---|---|---|
| `Transcript.StoreRefinesHistory` | src/orchlink/broker/storage/memory_transcript_store.py:62-73 | after any submissions the retained list is the longest suffix of the accepted history that meets both caps, numbered contiguously up to nextSeq - 1, with the watermark at its first sequence (unset while nothing was dropped) |
| `Transcript.DropCountIsLeast` | src/orchlink/broker/storage/memory_transcript_store.py:62-73 | dropping stops as soon as the rest fits both caps: what is left fits, and nothing longer did |
| `Transcript.DroppingKeepsLongest` | src/orchlink/broker/storage/memory_transcript_store.py:149-184 | cutting an already cut history again is the same as cutting the whole history once |
| `Transcript.AppendKeepsRefinement` | src/orchlink/broker/storage/memory_transcript_store.py:149-184 | one accepted batch keeps the log a refinement of the unbounded history |
| `Transcript.ReadIsPageOfHistory` | src/orchlink/broker/storage/memory_transcript_store.py:225-243 | a read without a marker is exactly the first `limit` history events after the cursor; with one, it is the marker at the first retained sequence and the first `limit` events from there, and the cursor lies below it; either way the page tells the next sequence |
| `Transcript.EventsAreAsSubmitted` | src/orchlink/broker/storage/memory_transcript_store.py:149-184 | each retained event is the accepted one its sequence counts, with the submitted text, size and kind; without a kind it is assistant text |
| `Transcript.StoreStaysWithinCaps` | src/orchlink/broker/storage/memory_transcript_store.py:62-73 | after any submissions no more events, nor more bytes of them, are retained than the caps allow |
| `Transcript.BytesAddUp` | src/orchlink/broker/storage/memory_transcript_store.py:42-43 | the byte size of events is the sum of their sizes |
| `Transcript.ResubmissionIsIgnored` | src/orchlink/broker/storage/memory_transcript_store.py:149-157 | resubmitting a batch id changes nothing, whatever was appended in between |
| `Transcript.MemoryTranscriptStore.AppendTranscriptBatch` | src/orchlink/broker/storage/memory_transcript_store.py:149-184 | the append on the four per-task dictionaries equals the log append, reports duplicates, and leaves every other task's log alone |
| `Transcript.MemoryTranscriptStore.DropOldestEvents` | src/orchlink/broker/storage/memory_transcript_store.py:62-73 | the in-place loop drops exactly the least number of oldest events and raises the watermark accordingly |
| `Follower.FollowerIsSafe` | src/orchlink/connector/pi_extension_ui.py:797-870 | whatever workers write, under every interleaving of appends, drops, polls, view switches, failures and delayed responses a follower holds only true history events, in strictly rising sequence and each once; every sequence it skipped is at or below the mark recorded when it accepted the next event, and that mark reaches the accepted sequence unless the event right before it imitates the marker |
| `Follower.MarksAreExact` | src/orchlink/connector/pi_extension_ui.py:834-846 | of the events a landing page makes a follower accept after a gap, the mark is at or past the accepted sequence if and only if the event right before was no longer on the page or does not imitate the marker |
| `Follower.FollowerCatchesUpIff` | src/orchlink/connector/pi_extension_ui.py:803-857 | once appends stop, from any reachable state and for each task by itself, undisturbed polls reach the last retained event if and only if nothing is retained above the cursor, or the last such event does not imitate the marker and no 200 of them in a row do |
| `Follower.FollowerCatchesUp` | src/orchlink/connector/pi_extension_ui.py:803-857 | when no retained event above the cursor imitates the marker, as many undisturbed polls as pages remain suffice |
| `Follower.StepKeepsInv` | src/orchlink/connector/pi_extension_ui.py:797-870 | each step of the two-party protocol keeps followers genuine and their skips marked, and only the newest generation able to act |
| `Follower.HandlePage` | src/orchlink/connector/pi_extension_ui.py:829-850 | handling a page read at the cursor keeps the follower genuine and its skips marked, and moves the cursor to the last event of the page that does not imitate the marker, or leaves it |
| `Follower.HandleDecides` | src/orchlink/connector/pi_extension_ui.py:829-850 | the retention notice, a system event of that text, only marks; an event at or below the cursor is passed over; any other moves the cursor to it and is shown exactly if it is assistant text |
| `Follower.OnlyTheTaskInViewIsFollowed` | src/orchlink/connector/pi_extension_ui.py:797-827 | in every run only the follower of the task in view changes, and none once the view is left, whatever responses are still under way |
| `Follower.FollowTranscriber.OnResponse` | src/orchlink/connector/pi_extension_ui.py:818-857 | a response of an older generation changes nothing; one of the newest is handled event by event |
| `Follower.ForgedMarkerStallsFollower` | src/orchlink/connector/pi_extension_ui.py:834-846 | an instance: a single event of any size up to a thousand bytes that imitates the marker is never reached, however often the follower polls |
| `Journal.RestartRestoresLastRecord` | src/orchlink/broker/storage/jsonl.py:366-421 | after any run of mutations, records, compactions, crashes, torn appends and interrupted start-ups, a start restores exactly the state of the last completed record, and the next record survives in turn |
| `Journal.MutationsAreRecorded` | src/orchlink/broker/storage/jsonl.py:518-539 | a recorded mutation completes a record of the very state it made |
| `Journal.RecordSurvives` | src/orchlink/broker/storage/persistence.py:71-86 | a completed record is remembered until a later one completes, whatever crashes in between |
| `Journal.NextRecordSurvivesIffShorterTear` | src/orchlink/broker/storage/jsonl.py:366-421 | after a torn append and a restart the next record survives another restart if and only if the tear lost more than the final newline |
| `Journal.RecordsSurviveFailedAppendIff` | src/orchlink/broker/storage/jsonl.py:427-449 | when an append fails part-way and the process goes on, a restart after further uncompacted records restores the last of them if the failed append left nothing or its whole line, and otherwise the record before it |
| `Journal.CompactionHeals` | src/orchlink/broker/storage/jsonl.py:451-477 | a compaction restores the present state at a restart, whatever the file held before |
| `Journal.RunKeepsInv` | src/orchlink/broker/storage/jsonl.py:366-477 | in every reachable state the file is complete records ending with the last one completed, plus at most one undecodable torn tail; the record count is exact while the process is up |
| `Journal.JournalIsBounded` | src/orchlink/broker/storage/jsonl.py:451-477 | a recorded operation whose compaction does not fail leaves one record or a file under both limits, and the record count equals the records in the file |
| `Journal.RepairRestoresCleanFile` | src/orchlink/broker/storage/jsonl.py:366-421 | start-up repair drops exactly the torn tail |
| `Journal.EncodeRoundTrips` | src/orchlink/broker/storage/persistence.py:89-91 | record text round-trips |
| `Journal.TornRecordUndecodable` | src/orchlink/broker/storage/persistence.py:89-91 | no strict prefix of a record decodes |
| `Journal.JoinedRecordsUndecodable` | src/orchlink/broker/storage/jsonl.py:366-421 | a record followed by more text on its line does not decode |
| `Journal.PartBeforeRecordUndecodable` | src/orchlink/broker/storage/persistence.py:89-91 | no part of a record followed by another record decodes |
| `Journal.JsonlMessageStore.ReadJournal` | src/orchlink/broker/storage/jsonl.py:366-421 | the line loop computes the load: latest decodable record, valid lines, and whether a corrupt line stopped it |
| `Journal.JsonlMessageStore.Recorded` | src/orchlink/broker/storage/jsonl.py:518-539 | a recorded mutation is change, append and compaction unless the rewrite fails |
| `Journal.JsonlMessageStore.MaybeCompactLocked` | src/orchlink/broker/storage/jsonl.py:451-477 | compaction rewrites the file to one record exactly when a limit is reached |
| `JournalLock.LockExcludes` | src/orchlink/broker/storage/jsonl.py:97-133 | under every interleaving at most one task is inside, it is the owner, and the depth is exactly its nesting |
| `JournalLock.EntersIffFree` | src/orchlink/broker/storage/jsonl.py:97-133 | under every interleaving a task outside gets in exactly when nobody holds the lock, and the holder always gets its nested acquisition |
| `JournalLock.JournalOrderIsCommitOrder` | src/orchlink/broker/storage/jsonl.py:518-539 | the k-th record is the state of the k-th recorded commit, nested or not; the journal is at most one commit behind, and not behind while the lock is free |
| `JournalLock.ReentrantAsyncLock.AEnter` | src/orchlink/broker/storage/jsonl.py:118-126 | the owner re-enters, another task enters only when the wrapped lock is free |
| `JournalLock.ReentrantAsyncLock.AExit` | src/orchlink/broker/storage/jsonl.py:128-133 | the last exit frees owner and wrapped lock together |
| `Lifecycle.TransitionPath` | src/orchlink/core/job_lifecycle.py:127-145 | for any transition table the search terminates with a shortest legal path through the preferred statuses and fails exactly when there is none |
| `Jobs.ReachesIffPath` | src/orchlink/core/states.py:34-46 | on the task table a status is reachable through preferred statuses exactly when it lies strictly forward in the lifecycle |
| `Jobs.WalkArrives` | src/orchlink/core/models.py:732-742 | applying the lifecycle methods along a legal path ends at its target, with the lease cleared exactly when that is terminal |
| `Jobs.TransitionTaskJob` | src/orchlink/core/job_lifecycle.py:147-167 | search plus walk equals the closed form: arrive, stay put when finished or unasked, or fail |
| `Jobs.TalkTransitionIsTotal` | src/orchlink/core/job_lifecycle.py:216-239 | a stored talk job always follows its conversation's status and, once finished, never moves |
| `BrokerInvariants.UpsertKeeps` | src/orchlink/broker/storage/memory_job_projector.py:125-160 | upserting a task keeps every stored job well shaped and moves its lease only as a first grant or an end |
| `BrokerInvariants.StoreResultKeeps` | src/orchlink/broker/storage/memory_work_queue.py:139-151 | storing a result wakes every waiter of its task, scoped or bare, with exactly that result, and spares all other waits |
| `BrokerInvariants.SettleKeeps` | src/orchlink/broker/storage/memory.py:191-238 | ending a message keeps the invariant and leaves a result, a finished job and no waiting reply |
| `BrokerSteps.SweepIsComplete` | src/orchlink/broker/storage/memory.py:243-293 | the sweep leaves no stale session and no overdue message (what that means in time is BrokerClock.SweepEndsOnTime); all work it ended is settled; the invariant and the cover of busy work are kept |
| `BrokerClock.SweepEndsOnTime` | src/orchlink/broker/storage/memory.py:191-293 | the sweep cancels exactly the unfinished messages of agents whose active session was last seen 1000 ms or more ago per second of its grace, times out exactly the others that have a timeout and are 1000 ms or more old per second of it, and leaves the rest as they were |
| `BrokerClock.SweepExpiresOnTime` | src/orchlink/broker/storage/memory_session_store.py:91-120 | and it expires exactly the active sessions last seen that long ago |
| `BrokerClock.TimesOutOnTime` | src/orchlink/broker/storage/memory.py:243-293 | over a run, a message that nothing else ends stays unfinished through every sweep before its creation time plus 1000 ms per second of its timeout, has timed out after any sweep from then on, and without a positive timeout never does |
| `BrokerClock.MessagesWereEnqueued` | src/orchlink/broker/storage/memory_work_queue.py:166-200 | in every reachable state each stored message was enqueued by a call of the run, at its creation time |
| `BrokerSteps.SweepDecides` | src/orchlink/broker/storage/memory.py:191-293 | the sweep ends stale agents' work before it times out what is overdue, once each, and nothing else |
| `BrokerSteps.SweepExpires` | src/orchlink/broker/storage/memory_session_store.py:91-120 | the sweep expires exactly the active sessions that outlived their grace |
| `BrokerActs.ApplyKeeps` | src/orchlink/broker/storage/memory.py:387-709 | any call, sweep included and on every exit, keeps the whole invariant and moves each job, conversation and wait only forward |
| `BrokerActs.ActKeeps` | src/orchlink/broker/storage/memory_work_queue.py:166-513 | any operation alone does the same, raising or not |
| `BrokerActs.PutOnFreeTargetKeeps` | src/orchlink/broker/storage/memory_work_queue.py:106-137 | a message admitted for a free target leaves at most one busy worker-bound message per project and agent |
| `BrokerCover.AcquireKeepsCoverIff` | src/orchlink/broker/storage/memory_session_store.py:122-177 | a granted session keeps all busy work covered if and only if it does not take over another agent's active lease id while that agent has busy work |
| `BrokerCover.ApplyKeepsCover` | src/orchlink/broker/storage/memory.py:387-709 | every other call keeps every busy worker-bound message targeted at an agent with an active session |
| `BrokerAnswers.EnqueueAnswers` | src/orchlink/broker/storage/memory_work_queue.py:77-137 | an enqueue is refused exactly for a turn of a conversation that is unknown, not open or at its turn limit, or for work for a worker that is offline, has unfinished work or, for a task or a new conversation, is in another open conversation; the answer says which, and nothing changes |
| `BrokerAnswers.EnqueueStores` | src/orchlink/broker/storage/memory_work_queue.py:166-200 | an accepted message is stored queued (a chat close closed) at this instant, the others stay, and a new reply wait is added exactly when one is asked for and none is there |
| `BrokerAnswers.EnqueueQueuesTask` | src/orchlink/broker/storage/memory_job_projector.py:125-160 | a task enqueued for the first time has a queued job without a lease, and no other job changes |
| `BrokerAnswers.EnqueueTalks` | src/orchlink/broker/storage/memory_job_projector.py:162-279 | an accepted talk message leaves its conversation at its turn and limit with both parties in it, open or closed as it was or closed by it, and the talk job follows |
| `BrokerAnswers.LastTurnIsLast` | src/orchlink/broker/storage/memory_work_queue.py:77-89 | after a talk message at the turn limit the next turn is refused as closed |
| `BrokerOutcomes.EnqueueRaisesIffHandedOut` | src/orchlink/broker/storage/memory_work_queue.py:166-200 | an admitted enqueue raises exactly when its task was already handed out, and the message is stored and busy all the same |
| `BrokerOutcomes.DeliveryLeasesUnlessRunning` | src/orchlink/broker/storage/memory_work_queue.py:205-231 | delivering a busy task raises exactly when its job already runs; otherwise the job is delivered and keeps its lease or gets the first one for the target, and that lease goes out |
| `BrokerAnswers.ReplyAnswers` | src/orchlink/broker/storage/memory_work_queue.py:233-262 | a reply raises exactly for a session lease that is not current or an epoch claim that is not the present holder's, is ignored exactly when its message was cancelled or timed out, and counts otherwise; only then anything changes |
| `BrokerAnswers.ReplyDecides` | src/orchlink/core/states.py:83-88 | an accepted reply that is no chat close leaves message, result and unfinished job done, or failed if its own status is failed, timeout or cancelled; a chat close leaves message and result closed and the job as it is |
| `BrokerAnswers.ReplyTalks` | src/orchlink/broker/storage/memory_work_queue.py:271-288 | an accepted talk reply leaves its conversation open at its turn, failed if it reports a failure, or closed if it closes it or takes the last turn |
| `BrokerOutcomes.ReplyCompletesWork` | src/orchlink/broker/storage/memory_work_queue.py:233-288 | an accepted reply frees the worker, stores the done, failed or closed result, finishes the job (unless a chat close) and wakes exactly the callers waiting for the task and the correlation |
| `BrokerCalls.DeliveryAnswers` | src/orchlink/broker/storage/memory_work_queue.py:205-231 | a poll is refused exactly when the agent has an active session and the lease is not one of its; an unknown item goes out as it is, an ended one is skipped, any other is marked delivered |
| `BrokerCalls.UpdateDecides` | src/orchlink/broker/storage/memory_work_queue.py:290-308 | a status update stores exactly the status given, unless the message is unknown, the session not current, or the message over |
| `BrokerCalls.RunningUpdateRuns` | src/orchlink/broker/storage/memory_work_queue.py:290-308 | a running update of unfinished work never fails: its job runs unless finished, and its conversation is open |
| `BrokerCalls.ActivityAnswers` | src/orchlink/broker/storage/memory.py:327-373 | activity marks the message it concerns as running exactly if that is unfinished, and changes no other and no job otherwise |
| `BrokerCalls.ActivityShowsRunning` | src/orchlink/broker/storage/memory.py:359-373 | activity on a known task shows it as running while its projection is not finished, and never otherwise changes a finished one |
| `BrokerCalls.ActivityFinds` | src/orchlink/broker/storage/memory.py:327-341 | it concerns the stored message it names, else one of its project with its task or conversation, if there is any |
| `BrokerCalls.FindsFirstNamed` | src/orchlink/broker/storage/memory.py:327-341 | namely the first of these in order of storing |
| `BrokerCalls.FindsFirstCorrelated` | src/orchlink/broker/storage/memory_work_queue.py:465-472 | a reply timeout concerns the first message stored under its correlation |
| `BrokerCalls.LeaseCallsAnswer` | src/orchlink/broker/storage/memory.py:570-642 | lease calls raise as not found for a task without a job and as a lease conflict for a job without the lease they need, and then change nothing |
| `BrokerCalls.ReplyTimeoutEndsTalk` | src/orchlink/broker/storage/memory_work_queue.py:465-489 | the timed-out message's conversation times out with it, at its turn, and its talk job unless finished |
| `BrokerCalls.FindsJob` | src/orchlink/broker/storage/memory.py:570-579 | a task id finds the project's own job, else the only job whose key ends in a colon and the id |
| `BrokerCalls.TranscriptAnswers` | src/orchlink/broker/storage/memory_transcript_store.py:117-148 | a transcript append passes exactly from a current session, by the present holder if it claims an epoch, and before the task has finished |
| `BrokerCalls.TelemetryDecides` | src/orchlink/broker/storage/memory_telemetry_store.py:157-198 | telemetry is kept exactly for a known unfinished task from a current session and the present holder, with the claimed epoch and holder and a tool count of at least zero, and replaces only that task's record |
| `BrokerCalls.CancelAnswers` | src/orchlink/broker/storage/memory_work_queue.py:332-419 | a cancel answers with exactly the unfinished messages its item names, else with the item if it names one open conversation, else it raises and changes nothing |
| `BrokerCalls.CancelEndsTalk` | src/orchlink/broker/storage/memory_work_queue.py:346-374 | the conversation such a cancel names is cancelled, and its talk job unless finished |
| `BrokerCalls.CloseAnswers` | src/orchlink/broker/storage/memory_work_queue.py:421-457 | a close succeeds exactly when its id names a conversation of the project, or else exactly one of any |
| `BrokerCalls.CloseDecides` | src/orchlink/broker/storage/memory_work_queue.py:421-457 | the conversation is closed one turn on, or at the closing message's later turn, within its limit, and its talk job is closed unless finished |
| `BrokerOutcomes.CancelDecides` | src/orchlink/broker/storage/memory_work_queue.py:332-419 | a cancel ends exactly the busy messages its item names and no other |
| `BrokerOutcomes.CancelSettles` | src/orchlink/broker/storage/memory_work_queue.py:332-419 | cancelled work has a result, a finished job and no pending reply wait |
| `BrokerWakes.CancelLeavesNobodyWaiting` | src/orchlink/broker/storage/memory_work_queue.py:332-419 | and every caller that awaited its task, scoped or by bare id, has a cancelled result it awaited |
| `BrokerWakes.CancelEndsJobs` | src/orchlink/broker/storage/memory_work_queue.py:332-419 | the unfinished job of a cancelled task is cancelled, and no conversation of a cancelled talk message stays open |
| `BrokerWakes.CancelTellsWaiting` | src/orchlink/broker/storage/memory_work_queue.py:396-408 | whoever waits for the reply to a cancelled message is told that it was cancelled |
| `BrokerWakes.SweepEndsJobs` | src/orchlink/broker/storage/memory.py:191-293 | the unfinished job of work a sweep ends is cancelled or timed out as some message of its task was, and no conversation of ended talk stays open |
| `BrokerWakes.SweepWakes` | src/orchlink/broker/storage/memory.py:191-293 | the sweep ends exactly the task waits, scoped or bare, that await a result of the work it ended, with such a result; it leaves ended messages as they are, reopens no conversation, changes no job or conversation but as a message that ended did, and tells who waits for such a message's reply how it ended |
| `BrokerWakes.ApplyWakes` | src/orchlink/broker/storage/memory_work_queue.py:139-151 | any call, sweep included, ends exactly the pending task waits that await a result it stores, with such a result, and the one it abandons; kept results change for exactly the tasks it stores one of |
| `BrokerLate.EndedMessageChangesIff` | src/orchlink/broker/storage/memory_work_queue.py:465-489 | a call changes a message that had ended if and only if it is an accepted reply to it with another status, a reply timeout of it, or a new message under its id |
| `BrokerLate.ClosedConversationReopensIff` | src/orchlink/broker/storage/memory_work_queue.py:271-272 | a call opens a conversation that was not open if and only if it is an accepted talk reply that neither closes nor fails nor takes the last turn, or a live status update of a talk message still busy in it |
| `BrokerOutcomes.ReclaimTakesExpiredLeases` | src/orchlink/broker/storage/memory.py:614-642 | a leased job moves to the next epoch and the new holder exactly when its lease has expired; before that the holder gets its lease back and others are refused; a reclaimed lease lasts six of its intervals from now |
| `BrokerClock.AcquireDecides` | src/orchlink/broker/storage/memory_session_store.py:122-177 | a session is refused exactly when another active session of the project has its agent or its non-empty worker name; a granted one is active under its lease, seen now, with the command's project, agent and worker, and no other session changes |
| `BrokerClock.GrantedSessionLives` | src/orchlink/broker/storage/memory_session_store.py:91-177 | a sweep expires a granted session exactly from 1000 ms per second of its grace, or of the default, after it was granted |
| `BrokerClock.OwnLeaseAgain` | src/orchlink/broker/storage/memory_session_store.py:122-145 | an agent gets its own active lease again unless it asks for a worker name that another active session has |
| `BrokerClock.SessionHeartbeatAnswers` | src/orchlink/broker/storage/memory_session_store.py:179-197 | a session heartbeat raises for an unknown session, does nothing for an ended one, and else renews the time and, if given, the worker name only |
| `BrokerClock.ReleaseAnswers` | src/orchlink/broker/storage/memory_session_store.py:199-230 | a release raises for an unknown session, repeats what an ended one listed, and else lists and remembers exactly the tasks and conversations of the agent's unfinished messages |
| `BrokerOutcomes.HeartbeatDefersExpiry` | src/orchlink/broker/storage/memory_session_store.py:179-197 | a heartbeat keeps an active session from expiring for exactly 1000 ms per second of its grace or of the default, and touches no other session |
| `BrokerOutcomes.ReleaseEndsAgentsWork` | src/orchlink/broker/storage/memory_session_store.py:199-230 | releasing an active session cancels exactly its agent's busy work in its project |
| `BrokerOutcomes.HeartbeatRenewsIffHolder` | src/orchlink/broker/storage/memory.py:581-612 | a job heartbeat succeeds exactly for the present holder and epoch and only moves the lease's expiry, to six intervals from now, and its interval |
| `BrokerOutcomes.CloseEndsConversation` | src/orchlink/broker/storage/memory_work_queue.py:421-457 | closing a conversation that is found closes its record and finishes its talk job |
| `BrokerOutcomes.ActivityRunsWork` | src/orchlink/broker/storage/memory.py:327-361 | activity on busy work marks its message as running, and its job too unless that has finished |
| `BrokerOutcomes.ReplyTimeoutEndsWork` | src/orchlink/broker/storage/memory_work_queue.py:465-489 | a reply timeout times out the correlation's first message and its unfinished job and stores no result |
| `BrokerRuns.OneBusyItemPerWorker` | src/orchlink/broker/storage/memory_work_queue.py:106-123 | in every reachable state each project and agent has at most one busy worker-bound message |
| `BrokerRuns.OneActiveSessionPerAgent` | src/orchlink/broker/storage/memory_session_store.py:122-145 | in every reachable state each project and agent has at most one active session |
| `BrokerRuns.NoOrphanedWork` | src/orchlink/broker/storage/memory_work_queue.py:112-115 | with peer sessions required, every busy worker-bound message of a run that takes over no busy agent's lease id targets an agent with an active session |
| `BrokerRuns.TakenOverSessionOrphansWork` | src/orchlink/broker/storage/memory_session_store.py:130-145 | acquiring under the id of another agent's active session orphans that agent's work: the proviso is needed |
| `BrokerRuns.FinishedJobsStay` | src/orchlink/broker/storage/memory_job_projector.py:108-160 | a finished task job keeps its status for the rest of the run and never has a lease |
| `BrokerRuns.FinishedTalksStay` | src/orchlink/broker/storage/memory_job_projector.py:162-279 | a finished talk job keeps its status for the rest of the run, whatever its conversation record says |
| `BrokerRuns.StoredJobsHaveShape` | src/orchlink/core/models.py:326-341 | in every reachable state a leased job is delivered or running, a finished job has no lease, and reclaimable is never stored |
| `BrokerRuns.ProjectionsFollowJobs` | src/orchlink/broker/storage/memory_job_projector.py:125-160 | in every reachable state exactly the jobs have projections, with the same lease and status, save that activity may show a queued or delivered task as running |
| `BrokerAnswers.ScopedWaitDecides` | src/orchlink/broker/storage/memory_work_queue.py:495-507 | a scoped wait gets the result kept under its project and task if there is one, is told missing exactly when there is neither result nor task, and else is a new pending future listed under its key |
| `BrokerAnswers.BareWaitDecides` | src/orchlink/broker/storage/memory_work_queue.py:495-507 | a bare wait gets a kept result exactly when one stored key alone names its id, and else is a new pending future listed under the id |
| `BrokerAnswers.CleaningDelists` | src/orchlink/broker/storage/memory_work_queue.py:509-513 | cleaning up takes exactly the caller's own future off its list and drops the list only when it is empty |
| `BrokerAnswers.ReplyWaitsAreShared` | src/orchlink/broker/storage/memory_work_queue.py:459-493 | callers of one correlation share one future, created on first use, and dropped only by a caller that holds it |
| `BrokerAnswers.KeysAreFound` | src/orchlink/broker/storage/memory_job_projector.py:125-160 | a project's key for an id is found by the bare id, and tells projects apart |
| `BrokerRuns.NoLostWakeup` | src/orchlink/broker/storage/memory_work_queue.py:495-513 | a scoped task wait is pending only while no result of its task is stored; a wait that is no longer pending was abandoned or got a result of its own task, stored by the very call that found it pending; outcomes are final |
| `BrokerRuns.CallsWakeExactly` | src/orchlink/broker/storage/memory_work_queue.py:139-151 | each call of a run ends a pending task wait, scoped or bare, if and only if it stores a result the wait awaits or abandons the wait, and the wait then has such a result |
| `BrokerRuns.AnswersWereStored` | src/orchlink/broker/storage/memory_work_queue.py:139-151 | every result a task wait has was stored by the call of the run that ended the wait |
| `BrokerRuns.ResultsAreOfStoringCalls` | src/orchlink/broker/storage/memory_work_queue.py:145-151 | each call of a run changes the kept result of no task but those it stores a result of, and keeps one of these |
| `BrokerRuns.EpochCountsReclaims` | src/orchlink/broker/storage/memory.py:614-642 | a job's lease epoch is one plus the number of its reclaims: it starts at 1, never falls and grows by one per reclaim |
| `BrokerRuns.StaleHoldersAreFenced` | src/orchlink/broker/storage/memory.py:581-597 | once a job was leased at an epoch, heartbeats, transcript appends and telemetry naming a smaller one raise for the rest of the run; any that succeeds names the present holder and epoch |
| `BrokerRuns.StaleRepliesAreFenced` | src/orchlink/broker/storage/memory_work_queue.py:242-250 | once a job was leased at an epoch, a reply asserting a smaller one raises and changes nothing for as long as the job is leased; one that is not refused names the present holder and epoch |
| `BrokerRuns.SpansStayDisjoint` | src/orchlink/broker/storage/memory.py:620-627 | epochs are granted in order, each only at or after the expiry of the ones before as last renewed |
| `BrokerClock.LeasesRunFromTheirCall` | src/orchlink/core/models.py:149-198 | whatever call a run ends with, a lease that is new or changed after it runs from that call's time for six of its heartbeat intervals, of at least a second each |
| `BrokerRuns.LeaseSpansAreDisjoint` | src/orchlink/core/models.py:149-198 | with a clock that never goes back no two leases of one job are in force at the same time |
| `BrokerStore.MemoryMessageStore.Execute` | src/orchlink/broker/storage/memory.py:387-709 | a call on the store object equals the specified call: new state and answer, raising or not |
| `BrokerStore.MemoryMessageStore.ExpireTimedOutMessagesLocked` | src/orchlink/broker/storage/memory.py:243-293 | the sweep's loops over the session and message dictionaries equal the specified sweep |
| `BrokerStore.MemoryMessageStore.ExpireSessionsLocked` | src/orchlink/broker/storage/memory_session_store.py:91-120 | the expiry loop settles each stale session's work, stores it as expired and lists exactly those sessions |
| `BrokerStore.MemoryMessageStore.SettleWorkForOfflineAgentLocked` | src/orchlink/broker/storage/memory.py:191-238 | the settlement loop cancels the agent's busy work message by message and lists what it settled |
| `BrokerStore.MemoryMessageStore.SettleLocked` | src/orchlink/broker/storage/memory_work_queue.py:376-418 | ending one message updates message, job, result, conversation and waiters as specified |
| `BrokerStore.MemoryMessageStore.TransitionTaskJobLocked` | src/orchlink/broker/storage/memory_job_projector.py:87-114 | moving a message's job stores it, or raises leaving the stored jobs as they were |
| `BrokerStore.MemoryMessageStore.UpsertTaskLocked` | src/orchlink/broker/storage/memory_job_projector.py:125-160 | the job and its projection are stored together, with a first lease on dispatch |
| `BrokerStore.MemoryMessageStore.TouchConversationLocked` | src/orchlink/broker/storage/memory_job_projector.py:162-279 | conversation record and talk job are updated as specified |
| `BrokerStore.MemoryMessageStore.ResolveTaskWaitersLocked` | src/orchlink/broker/storage/memory_work_queue.py:139-143 | the waiter list is popped and every pending future completed |
| `BrokerStore.MemoryMessageStore.StoreTaskResultLocked` | src/orchlink/broker/storage/memory_work_queue.py:145-151 | the result is stored and both waiter lists resolved |
| `BrokerStore.MemoryMessageStore.AcquireSessionLocked` | src/orchlink/broker/storage/memory_session_store.py:122-177 | the loop over sessions finds a conflict exactly when one exists |
| `BrokerStore.MemoryMessageStore.HeartbeatSessionLocked` | src/orchlink/broker/storage/memory_session_store.py:179-197 | an active session's heartbeat and worker name are renewed |
| `BrokerStore.MemoryMessageStore.ReleaseSessionLocked` | src/orchlink/broker/storage/memory_session_store.py:199-230 | an active session is settled and released; an ended one is returned |
| `BrokerStore.MemoryMessageStore.AssertWorkerTargetFreeLocked` | src/orchlink/broker/storage/memory_work_queue.py:106-137 | the admission loops refuse exactly when the peer is offline, the worker busy, or another conversation open |
| `BrokerStore.MemoryMessageStore.EnqueueMessageLocked` | src/orchlink/broker/storage/memory_work_queue.py:166-200 | admission, then storing, projecting and registering the reply waiter |
| `BrokerStore.MemoryMessageStore.DeliverMessageLocked` | src/orchlink/broker/storage/memory_work_queue.py:205-231 | delivery of an inbox item, with the granted lease |
| `BrokerStore.MemoryMessageStore.SaveReplyLocked` | src/orchlink/broker/storage/memory_work_queue.py:233-288 | the reply's fences and its effects |
| `BrokerStore.MemoryMessageStore.UpdateMessageStatusLocked` | src/orchlink/broker/storage/memory_work_queue.py:290-308 | a status update and its projection |
| `BrokerStore.MemoryMessageStore.ApplyActivityToWorkLocked` | src/orchlink/broker/storage/memory.py:327-373 | activity marks its message, job and projection as running |
| `BrokerStore.MemoryMessageStore.CancelWorkLocked` | src/orchlink/broker/storage/memory_work_queue.py:332-419 | targets are collected and ended in order, or an open conversation is cancelled, or the call raises |
| `BrokerStore.MemoryMessageStore.CloseConversationLocked` | src/orchlink/broker/storage/memory_work_queue.py:421-457 | the conversation is found and closed |
| `BrokerStore.MemoryMessageStore.FindTaskJobLocked` | src/orchlink/broker/storage/memory.py:570-579 | a job is found by scoped key, else by suffix when that is unambiguous |
| `BrokerStore.MemoryMessageStore.HeartbeatJobLocked` | src/orchlink/broker/storage/memory.py:581-612 | a matching heartbeat renews the lease |
| `BrokerStore.MemoryMessageStore.ReclaimJobLocked` | src/orchlink/broker/storage/memory.py:614-642 | an expired lease is reclaimed |
| `BrokerStore.MemoryMessageStore.RecordTelemetryLocked` | src/orchlink/broker/storage/memory_telemetry_store.py:157-198 | the fences, then one stored record per task |
| `BrokerStore.MemoryMessageStore.PrepareTaskWaitLocked` | src/orchlink/broker/storage/memory_work_queue.py:495-507 | a stored result, a missing task, or a new listed future |
| `BrokerStore.MemoryMessageStore.CleanupTaskWaiterLocked` | src/orchlink/broker/storage/memory_work_queue.py:509-513 | only the caller's own future is delisted |
| `BrokerStore.MemoryMessageStore.TimeoutReplyLocked` | src/orchlink/broker/storage/memory_work_queue.py:465-489 | the first message of the correlation is timed out, whatever its status |
| `BrokerStore.MemoryMessageStore.CleanupReplyWaiterLocked` | src/orchlink/broker/storage/memory_work_queue.py:491-493 | only the registered future is dropped |
| `Checkpoint.RecordedIsGreatest` | src/orchlink/broker/checkpoint.py:183-211 | after any moves each task's entry is a greatest of those recorded for it under epoch, then status |
| `Checkpoint.RecordingIsOrderIndependent` | src/orchlink/broker/checkpoint.py:183-211 | every permutation of the moves leaves the same epoch and status per task, and the same holder when an epoch determines its holder |
| `Checkpoint.RecordingKeepsOnePerTask` | src/orchlink/broker/checkpoint.py:200-211 | there is one entry per task |
| `Checkpoint.EntriesNeverGoBack` | src/orchlink/broker/checkpoint.py:183-197 | a settled task returns to in flight only at a strictly higher epoch |
| `Checkpoint.FindAfterUpsert` | src/orchlink/broker/checkpoint.py:200-211 | one recorded move changes at most its own task's entry, to the newer of the two |
| `Checkpoint.NewerWins` | src/orchlink/broker/checkpoint.py:183-211 | of two moves of a task the higher epoch wins; at one epoch a settlement wins over a delivery, and otherwise the later move |
| `Checkpoint.ReconcileCheckpoint` | src/orchlink/broker/checkpoint.py:257-329 | one drift per in-flight entry that disagrees with the live leases, in file order, and nothing else; its reason is missing, another epoch, or another holder at the same epoch, as the case is |
| `Checkpoint.CheckpointFile.RecordLease` | src/orchlink/broker/checkpoint.py:214-249 | the file is rewritten exactly when the move is not older than the entry |
| `ServiceAgreement.CheckpointAgreesWithStore` | src/orchlink/broker/service.py:150-217 | in every run of lawful calls, each taken whole, after every call a task with a live lease is in flight in the checkpoint with the same epoch and holder, and a task without a job has no entry |
| `ServiceAgreement.NoDriftForLiveLeases` | src/orchlink/broker/service.py:399-424 | reconciling the checkpoint against the store it was written beside reports no drift for any live lease |
| `ServiceAgreement.ServeAgrees` | src/orchlink/broker/service.py:359-436 | one lawful call, its sweep included, keeps the agreement for every task |
| `ServiceAgreement.DeliverAgrees` | src/orchlink/broker/service.py:150-168 | a delivery's lease is recorded in flight |
| `ServiceAgreement.ReclaimAgrees` | src/orchlink/broker/service.py:213-217 | a reclaim's lease is recorded in flight, at its higher epoch |
| `ServiceAgreement.SaveReplyAgrees` | src/orchlink/broker/service.py:170-189 | a lawful reply keeps the agreement about every task: the job it is recorded as settling has ended, or had nothing to lose |
| `ServiceAgreement.CancelAgrees` | src/orchlink/broker/service.py:200-205 | a cancel that names a task ends its job before the task is recorded as settled |
| `ServiceAgreement.SessionCallAgrees` | src/orchlink/broker/service.py:128-139 | whatever released and expired sessions settled is finished when it is recorded |
| `ServiceAgreement.ReplyAgreesIff` | src/orchlink/broker/service.py:170-189 | an accepted reply naming a task, with any claim, keeps the agreement about it if and only if it ends that task or finds nothing to lose: no live lease, no lease to grant, no claim to record |
| `ServiceAgreement.DeliverAgreesIff` | src/orchlink/broker/service.py:150-168 | a delivery that grants a task's first lease keeps the agreement about it if and only if the target agent has a name without blanks around it |
| `ServiceAgreement.ReclaimAgreesIff` | src/orchlink/broker/service.py:213-217 | a reclaim of an expired lease keeps the agreement about the id it gives if and only if the new holder has no blanks around it, given the job's own id, and if and only if it gives the job's own id, given such a holder |
| `ServiceAgreement.HeartbeatAgreesIff` | src/orchlink/broker/service.py:207-211 | an accepted job heartbeat keeps the agreement about the id it gives if and only if the job it found goes by that id |
| `ServiceAgreement.CancelAgreesIff` | src/orchlink/broker/service.py:200-205 | an accepted cancel keeps the agreement about the id it names if and only if that is no leased task or it ends a message of that task |
| `ServiceAgreement.SecondReleaseAgreesIff` | src/orchlink/broker/service.py:128-132 | releasing an ended session again keeps the agreement about a task if and only if the session does not list the task or the task is not leased |
| `ServiceAgreement.ProjectsShareAnEntry` | src/orchlink/broker/service.py:359-374 | a checkpoint can suit two projects' leased tasks of one id if and only if their leases have the same holder and epoch |
| `ServiceRecords.EndedIsRecorded` | src/orchlink/broker/service.py:376-397 | no task a release lists, and no item an accepted cancel names, is left in flight |
| `ServiceRecords.ExpiryIsRecorded` | src/orchlink/broker/service.py:134-139 | no task whose work an expiry of sessions ended is left in flight |
| `ServiceRecords.ReplyIsRecorded` | src/orchlink/broker/service.py:170-189 | after an accepted reply its task is in flight exactly if the entry is of a higher epoch than the reply's usable claim; a usable claim that is not older is on record as settled |
| `ServiceRecords.StripTrims` | src/orchlink/broker/service.py:359-374 | stripping a holder cuts all blanks off both ends and nothing else |
| `ServiceSteps.CheckpointCatchesUp` | src/orchlink/broker/service.py:128-217 | however deliveries and other calls fall between the store change of a call under the checkpoint lock and its checkpoint write, store and checkpoint agree whenever no write is pending, and will once it is done |
| `ServiceSteps.StepIsOrderly` | src/orchlink/broker/service.py:128-217 | each half of a call, and each call in between, keeps that |
| `ServiceSteps.DeliveryInBetween` | src/orchlink/broker/service.py:150-168 | a delivery's own write before another call's pending write is as good as after it |
| `ServiceSteps.LateSettlementAgreesIff` | src/orchlink/broker/service.py:170-189 | the late write of a reply that left its task unfinished keeps the agreement if and only if no lease of the task was granted in the meantime |
| `ServiceNames.SweepIsTidy` | src/orchlink/broker/storage/memory.py:243-293 | the sweep grants no lease and its sessions remember only finished tasks |
| `ServiceNames.CancelIsTidy` | src/orchlink/broker/storage/memory_work_queue.py:332-419 | a cancel grants no lease and keeps ids apart |
| `ServiceObject.BrokerService.Call` | src/orchlink/broker/service.py:128-217 | a service call is the store's call followed by what the service records |
| `ServiceObject.BrokerService.RecordInFlight` | src/orchlink/broker/service.py:359-374 | a usable lease is recorded in flight |
| `ServiceObject.BrokerService.RecordRecentlySettled` | src/orchlink/broker/service.py:376-397 | a settlement without a lease takes epoch and holder from the entry still in flight |
| `ServiceObject.BrokerService.LoadPriorLease` | src/orchlink/broker/service.py:458-466 | the first in-flight entry of the task |
| `ServiceObject.BrokerService.RecordSessionSettlements` | src/orchlink/broker/service.py:430-436 | every settled item is recorded in order |
| `ServiceObject.BrokerService.CurrentJobLeases` | src/orchlink/broker/storage/memory.py:160-166 | the snapshot holds exactly the leased jobs' ids with their epoch and holder |
| `ServiceObject.BrokerService.StartupReconcileCheckpoint` | src/orchlink/broker/service.py:399-424 | start-up compares the prior checkpoint with the live leases |
| `Goal.WorkEndsDoneIff` | src/orchlink/goal/runner.py:81-179 | when core criteria are checkable and acyclic and everything passes, work on an approved goal ends done if and only if it may take at least one step and one per open core criterion; otherwise it stops at the cap |
| `Goal.DoneIsDependencyClosed` | src/orchlink/goal/criteria.py:72-81 | in every reachable done goal each core criterion and all its transitive dependencies are verified or approved |
| `Goal.NothingBehindACycleIsApproved` | src/orchlink/goal/criteria.py:43-70 | nothing on or behind a dependency cycle is ever verified or approved |
| `Goal.ApprovalsNeverRegress` | src/orchlink/goal/criteria.py:83-116 | a verified or approved criterion stays so through every work, sign-off, gate and cancel |
| `Goal.StepKeeps` | src/orchlink/goal/runner.py:81-236 | each call approves a criterion only after all its dependencies, and is done only when all core criteria are approved |
| `Goal.SignoffDecides` | src/orchlink/goal/runner.py:218-236 | sign-off approves exactly the manual core criteria asked for that are not verified yet, provided all of them have their dependencies, and otherwise changes no criterion |
| `Goal.SomethingIsSelectable` | src/orchlink/goal/criteria.py:43-55 | an open core criterion of a checkable, acyclic goal leaves one that can be selected |
| `GoalChecks.EveryApprovalIsEarned` | src/orchlink/goal/checks.py:168-205 | in every reachable goal a verified criterion has a check that passed in some round of some work call, a core one while it was the one selected and its worker had replied; an approved one is a manual core criterion a sign-off asked for |
| `GoalChecks.FailingCheckIsNeverDone` | src/orchlink/goal/runner.py:81-179 | a checkable core criterion whose check fails in every round is never approved and its goal never done |
| `GoalChecks.DoneIsEarned` | src/orchlink/goal/criteria.py:72-81 | a done goal has criteria, and each core one passed its check or was signed off |
| `GoalChecks.WorkDecides` | src/orchlink/goal/runner.py:92-179 | what one round more of any work call does: a selected criterion's status becomes verified or failed by its check alone, no other core criterion changes, and the outcome and status are those of the failed dispatch, the blocker, the last core approval or the cap; with none selected the goal ends done, gated or blocked, exactly as its core criteria stand |
| `GoalChecks.WorkStartsAtCap` | src/orchlink/goal/runner.py:177-179 | without a round to take a work call stops at its cap and changes the status only |
| `GoalChecks.WorkNeedsGates` | src/orchlink/goal/runner.py:81-91 | before both gates are approved, while a task is active, or after the end, work changes nothing and says which |
| `GoalChecks.SelectedIsFirst` | src/orchlink/goal/criteria.py:43-55 | selection takes the first core criterion in file order that is checkable, open and has its dependencies approved |
| `GoalChecks.PassMoves` | src/orchlink/goal/criteria.py:83-116 | a pass verifies a non-core criterion only by its passing check, defers it only without one, and else leaves it |
| `GoalChecks.PassLeavesNoneOpen` | src/orchlink/goal/criteria.py:83-116 | and it leaves no non-core criterion open whose dependencies are approved |
| `GoalChecks.SignoffEndsGoalIff` | src/orchlink/goal/runner.py:218-236 | a sign-off ends the goal exactly when it approves something, all core criteria are approved afterwards, and the goal is neither draft nor cancelled |
| `GoalChecks.EndedGoalsStay` | src/orchlink/goal/policy.py:101-115 | done and cancelled are final in every run |
| `GoalChecks.GatesDecide` | src/orchlink/goal/policy.py:48-72 | approving sets the gates named and readies a draft once both are approved; rejecting sets both and returns a ready goal to draft |
| `GoalChecks.CancelEndsGoal` | src/orchlink/goal/policy.py:118-124 | a cancel ends every goal that is not done and leaves no task active |
| `GoalChecks.RunListsDeferred` | src/orchlink/goal/criteria.py:83-116 | in every reachable goal each deferred criterion is on the list of deferred ones |
| `GoalChecks.TaskNumbersRise` | src/orchlink/goal/store.py:219-227 | in every reachable goal work tasks are numbered strictly upwards and none is active between calls |
| `Goal.GoodRound` | src/orchlink/goal/checks.py:168-205 | a passing round verifies exactly the selected criterion among the core ones (what any other round does is GoalChecks.WorkDecides) |
| `Goal.ProcessNoncoreKeeps` | src/orchlink/goal/criteria.py:83-116 | the pass over non-core criteria touches no core criterion and takes no approval back |
| `Goal.ClaimedTaskIsNew` | src/orchlink/goal/store.py:132-144 | a claimed work task has the number after the highest of the goal's earlier tasks, joins the history, and sets a ready goal running |
| `GoalRunner.Runner.Work` | src/orchlink/goal/runner.py:81-179 | the work loop on the stored goal equals the specified loop, outcome included |
| `GoalRunner.Runner.Signoff` | src/orchlink/goal/runner.py:218-236 | sign-off approves the matching manual core criteria, or nothing when one lacks a dependency |
| `GoalRunner.Runner.SelectCriterion` | src/orchlink/goal/criteria.py:43-55 | the first open, checkable core criterion in file order whose dependencies hold |
| `GoalRunner.Runner.ProcessNoncoreCriteria` | src/orchlink/goal/criteria.py:83-116 | the loop verifies or defers each open non-core criterion whose dependencies hold |
| `GoalRunner.Runner.AllRequiredSatisfied` | src/orchlink/goal/criteria.py:72-81 | true exactly when there are criteria and every core one is approved |
| `GoalRunner.Runner.HasPendingSubjective` | src/orchlink/goal/criteria.py:57-66 | true exactly when a manual core criterion waits for sign-off |
| `GoalRunner.Runner.ClaimNextTask` | src/orchlink/goal/store.py:132-144 | one active task at a time, with a fresh number |
| `GoalRunner.Runner.NextNumber` | src/orchlink/goal/store.py:219-227 | the next number is above every number in history |
| `GoalRunner.Runner.TransitionStatus` | src/orchlink/goal/policy.py:101-115 | a legal move is made and terminal or blocked goals lose their active task; an illegal one changes nothing |
| `GoalRunner.Runner.RefreshFromGates` | src/orchlink/goal/policy.py:174-183 | draft and ready follow the gates, other statuses do not |

## Left out

- BrokerOps.Deliver: takes any inbox item as its argument, because the per-agent inbox queues are not modelled; every claim therefore holds for any order and any repetition of deliveries.
- BrokerOps.Act: a caller's clean-up of its task waiter happens only once its own future is no longer pending, as the awaiting code guarantees; before that the step does nothing.
- BrokerState.NextConversation: turn numbers are taken as validated (at least 1), and the display fields, previews and activity stamps of conversations and jobs are not modelled.
- BrokerStore.MemoryMessageStore.SettleLocked: stands for three copies of the same ending of a message (offline settlement, timeout, cancel), which differ in their reasons and events only.
- Transcript.MemoryTranscriptStore.AppendTranscriptBatch: the append itself; the session and lease fences in front of it are BrokerOps.TranscriptFence.
- Transcript.StoreRefinesHistory: the byte size of an event is an arbitrary number per event instead of the length of its encoded form.
- Journal.EncodeRoundTrips: record text is a small bracketed string with escapes in place of JSON; what matters of JSON here (it round-trips, holds no newline, and neither a strict prefix of it nor any part of it before another record decodes) is proved of it.
- Journal.RestartRestoresLastRecord: its runs hold no append that fails while the process lives on; what such an append costs is Journal.RecordsSurviveFailedAppendIff.
- JournalLock.JournalOrderIsCommitOrder: appends in it do not fail; an append that does is in Journal.
- ServiceAgreement.CheckpointAgreesWithStore: for runs without a restart; a JSONL restore re-queues running messages and is not modelled.
- Service.Strip: blanks are the ASCII ones Python strips.
- Goal.WorkEndsDoneIff: a check is a yes or no per round; a check that exceeds its own time limit raises out of the loop in the source and is not modelled, nor are the free-form commands of an acceptance file without criteria outside the loop.
- Goal.StepKeeps: one writer per goal and a fixed acceptance file; the file lock, transactions and markdown projections are not modelled.
- A run's results are not exclusive: the reply fence is skipped when the lease is already cleared or no epoch is asserted, so a second reply can overwrite a stored result (never the finished job); which calls change a kept result is BrokerRuns.ResultsAreOfStoringCalls.
- The clock is read several times within one source operation; the model gives an operation one instant.
- A session with an unreadable heartbeat time never expires in the source; stored times are always readable here.
- Registered agents, event and activity lists, audit journal, wire views, listings and queries.
- FastAPI routes, HTTP clients, command line, prompts, process supervision and user interface.
- The separate transcript journal, which is not repaired at start-up, and the long poll of transcript reads.
- Goal derivation and audit calls, worker prompts, evidence and blocker records.
