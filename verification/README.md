# DBAAS agent: a verified model

The DBAAS agent lets an assistant propose changes to database services, asks a user to approve them, runs the
approved changes exactly as proposed, and follows the asynchronous tasks they start. This project models the parts
of it where a mistake would be expensive, and proves what they promise:

- **The approval, operation and task protocol of a chat session** (`AppendLog`, `Session*`, `OperationService`,
  `WriteTools`, `TaskService`, `TaskEvents`, `ApprovalService`, `ApprovalDecisions`, `ChatRoutes`). Three append-only
  logs are read through a "latest record per id" fold; a non-blocking run lock guards some of the writers, while
  readers, task refreshes and retried decisions work without it and on copies that may be out of date.
- **The two-file snapshot cache** (`Snapshot*`): data file, meta file, time to live, refresh lock, unlocked readers.
- **The cleaner of metric snapshots** (`MetricCleanup`, `MetricCleanupLaws`), which repairs directories of such pairs.
- **The event stream between backend and page** (`SseCodec`, `SseStandard`): an incremental parser against a one-shot
  parser, and that against the one of the WHATWG HTML Living Standard.
- **The mock DBAAS server** (`Platform*`, `MockTask*`): summaries that must agree with the tree of services they
  summarise, and background workers that change units one at a time.
- **Three smaller algorithms**: the scanner of SQL rows (`SqlLiterals`), the matching of requested actions with tool
  calls (`ToolCallMatching`), and the index over the sessions of a user (`SessionIndex`).

## How interleaving is modelled

A protocol (`SessionProtocol`, `SnapshotProtocol`, `MockTasks`) is a transition system: a state, a datatype of steps,
`Enabled` and `Apply`. The theorems about whole runs (`SessionRuns`, `SnapshotRuns`, `MockTaskRuns`) quantify over every
sequence of enabled steps by any processes, with deaths of the server anywhere.

The handlers themselves are methods of, or on, a class whose fields are the real logs, files, lock and clock. They are
tied to the transition system in two ways. A handler may change a field only as part of one enabled step: `Commit`
requires the new fields to be what `Apply` says, and no handler can read or wait while a change is uncommitted. And
between two accesses it calls `Interfere`, whose body is empty and whose contract says that the other processes took
any number of steps; `OthersStayWithinRely` proves, in each of the three protocols, that every such sequence of steps
is within that contract. A handler that dies half-way leaves a prefix of its steps, which is a run as well.

What the surroundings decide is a parameter: the answers of the server and what becomes of a request on the wire, which
writes to disk fail, where a process dies, how the agent's turn ends. So a contract says what a call answers and does for
every such choice, and where the others may act in between, for the state in which the lock was tried or the files were
looked at, which the method returns as a ghost. Three histories in the state record what no log does: the write requests
sent, whether or not they arrived, the times the agent was set to work again, and the tasks marked as announced, each with
the process that did it; they say that something was attempted, and by whom, whatever the others did meanwhile.

Where the code holds no lock across two accesses, the model lets nobody run between them only here: looking for an
existing operation and appending the first record of a new one (or closing the one found); appending a task and then its
operation; one lazy refresh of the task list, from reading the list to the last append that follows from it; looking up
the tasks of an approval and noting that they have been announced; and the appends that mark the tasks of one group as
announced. `SessionLimits` states exactly what happens if a refresh falls between the first three.

Assumptions on the environment: ids are fresh; the clock does not run backwards; the agent, resumed with an approval,
runs write tools only for calls that this approval lists, runs none when it is resumed with a rejection, and runs none
before an approval; the call of a tool is atomic up to a crash, which may cut it short anywhere.

## Where the code does less than its surroundings suggest

Each of these is stated with the exact condition under which the stronger claim holds, or with a concrete case:

- The stamp of a decision is taken after the expiry was checked. So a decision time past the expiry is possible exactly
  for approvals with an expiry later than the start of the clock (`SessionRuns.DecisionStampMayPassExpiry`); what the
  code does guarantee is that there was time left when the holder of the lock looked (`SessionRuns.DecisionMade`).
- A refresh that is overtaken can undo a notice flag, a forced one can revive a finished task, a call without an id is
  sent again after a crash, and a second call with the same action and target is never sent (`SessionLimits`).
- Two users whose names become the same file name part share a snapshot directory, and the data of one can lie beside the
  fresh meta of the other (`SnapshotPaths.NowhereMixedExactlyIfApart`, `SnapshotPaths.CollidingUsers`).
- One cleaning of a metric directory is enough exactly if its names pair off; keys that end in `.meta` and the empty key
  break it (`MetricCleanupLaws.OnceIsEnoughExactlyIfTidy`).
- Used storage is the smaller of capacity and sum only if no tail of the volume sizes is negative, which the seed files do
  not guarantee; changing CPU or memory leaves the summaries stale (`PlatformLaws.ShownUsedExactly`,
  `PlatformUpdates.ResourcesLeaveAgreement`).
- The page's reader of events differs from sections 9.2.5 and 9.2.6 of the WHATWG HTML Living Standard in three ways:
  a CR alone ends no line (`SseStandard.LinesMeetExactly`, `SseStandard.LoneCrIsKept`), an event line without a value
  gives an empty name (`SseStandard.EmptyNameIsKept`), and an event whose closing blank line is missing is delivered
  (`SseStandard.UnfinishedIsDelivered`). Apart from lone CRs the other two are all there is
  (`SseStandard.MeetsStandardExactly`, `SseStandard.UnixMeetsStandardExactly`), and for printed events the first two
  (`SseStandard.PrintedMeetsExactly`).
- Snapshots are stored once per time to live at most, but a fetch whose answer cannot be stored holds back nothing
  (`SnapshotRuns.FetchBound`, `SnapshotRuns.AnswersUnbounded`).
- Requested actions all find the calls with their own arguments exactly if the calls cover them; otherwise the fallback may
  give a call away (`ToolCallMatching.FindInterruptedToolCallIds`, `ToolCallMatching.FallbackTakesAway`).

## Model

| member | source | states |
|---|---|---|
| `AppendLog.FoldLatestById` | ai-agent/backend/src/dbass_ai_agent/sessions/append_log_store.py:38-43 | the one-pass fold over an insertion-ordered dictionary computes the abstract fold: one record per id, the last one, in first-occurrence order |
| `AppendLog.LatestIsLast` | ai-agent/backend/src/dbass_ai_agent/sessions/append_log_store.py:38-43 | under each id a reader sees the record that no later record of that id follows |
| `AppendLog.LatestAppend` | ai-agent/backend/src/dbass_ai_agent/sessions/append_log_store.py:30-43 | appending a record to the log is updating the map it stands for |
| `AppendLog.FoldAppend` | ai-agent/backend/src/dbass_ai_agent/sessions/append_log_store.py:30-43 | an append replaces the record in place, or adds it at the end if the id is new |
| `AppendLog.IdsOfPrefix` | ai-agent/backend/src/dbass_ai_agent/sessions/append_log_store.py:38-43 | first-occurrence order: reading more of a log never reorders or drops an id already listed |
| `AppendLog.FoldCompacts` | ai-agent/backend/src/dbass_ai_agent/sessions/append_log_store.py:38-43 | a log compacted to its fold reads exactly like the original, whatever is appended later |
| `SessionRecords.InterruptedIdExactly` | ai-agent/backend/src/dbass_ai_agent/operations/operation_service.py:177-194 | the id found is that of the first listed call with this action and target and the same value for every argument, null and missing being the same; there is none exactly if no call fits or the first that fits has an empty id |
| `SessionRecords.OwnId` | ai-agent/backend/src/dbass_ai_agent/operations/operation_service.py:177-194 | listed calls that do not fit for one another and carry different ids are each found under their own id |
| `SessionRecords.SameConflictKey` | ai-agent/backend/src/dbass_ai_agent/operations/task_service.py:242-248 | two keys are the same exactly if they name the same action on the same targets, in any order |
| `SessionRecords.SameNoticeGroup` | ai-agent/backend/src/dbass_ai_agent/api/routes_tasks.py:211-220 | tasks are announced together exactly if they belong to one approval or, without one, to one operation |
| `SessionProtocol.StepKeepsInv` | ai-agent/backend/src/dbass_ai_agent/operations/approval_service.py:104-281 | every step of every process keeps the invariant (one pending approval, operations of approved approvals only, distinct tool call ids, at most one request sent per operation, one unfinished task per conflict key, agreement of tasks and operations, the agent resumed only as decided, announced tasks marked once) and moves records forward only |
| `SessionProtocol.SyncOperation` | ai-agent/backend/src/dbass_ai_agent/operations/task_service.py:177-239 | after a task has finished its operation shows the mapped status in record and result, keeps its identity and any result, and no other operation changes |
| `SessionProtocol.OtherStepIsRely` | ai-agent/backend/src/dbass_ai_agent/sessions/run_lock.py:15-23 | what one process may rely on while others act: under the run lock only refreshes and write-backs of decided approvals happen |
| `SessionRuns.TerminalDecisionsAbsorb` | ai-agent/backend/src/dbass_ai_agent/operations/approval_service.py:186-281 | in every run, once an approval is no longer pending its status, decider, decision time and expiry time never change, although copies read outside the lock are written back |
| `SessionRuns.AtMostOnePending` | ai-agent/backend/src/dbass_ai_agent/operations/approval_service.py:703-711 | in every reachable state at most one approval is pending |
| `SessionRuns.OnlyTheLockHolderMovesApprovals` | ai-agent/backend/src/dbass_ai_agent/sessions/run_lock.py:15-23 | an approval appears, and stops being pending, only by a step of the run lock's holder |
| `SessionRuns.AtMostOnce` | ai-agent/backend/src/dbass_ai_agent/operations/operation_service.py:43-111 | in every run, with crashes and retries, a tool call id stands behind one operation at most and its write request is sent once at most, whether or not it arrives; nothing is received that was not sent |
| `SessionRuns.ResumedAsDecided` | ai-agent/backend/src/dbass_ai_agent/operations/approval_service.py:474-497 | in every run the agent is set to work again only on decided approvals, and with an approval only on approved ones |
| `SessionRuns.DecisionMade` | ai-agent/backend/src/dbass_ai_agent/operations/approval_service.py:218-272 | every decision in the log was made at one step by the holder of the run lock, with time left when it was checked under this lock, and carries that step's user and time |
| `SessionRuns.WritesOnlyUnderConsent` | ai-agent/backend/src/dbass_ai_agent/operations/approval_service.py:250-281 | every write request that is sent, received or not, asks for a call listed in an approval that is approved, and is sent after the step that decided so, by the holder of the run lock, who since taking the lock had found the approval unexpired |
| `SessionRuns.TasksOnlyUnderConsent` | ai-agent/backend/src/dbass_ai_agent/dbaas/write_tools.py:328-414 | every task belongs to an operation of an approved approval that lists the call |
| `SessionRuns.RefusedApprovalsAcquireNothing` | ai-agent/backend/src/dbass_ai_agent/operations/approval_service.py:600-612 | an approval that is rejected or expired at any moment has no operation at any moment |
| `SessionRuns.ConflictFreedom` | ai-agent/backend/src/dbass_ai_agent/operations/task_service.py:57-64 | finished tasks keep every visible field whatever the server answers later, and a conflict key has one unfinished task at most |
| `SessionRuns.TaskOperationAgreement` | ai-agent/backend/src/dbass_ai_agent/operations/task_service.py:164-258 | in every reachable state, also after a crash between task and operation, the operation of a task that succeeded, failed or was canceled shows the same end, in the record and in its result |
| `SessionRuns.NoticeFlipsOnce` | ai-agent/backend/src/dbass_ai_agent/operations/task_service.py:102-115 | a task's notice flag is set at one step of a run at most, by the lock holder, when every task of its group has finished |
| `SessionRuns.MarkedOnce` | ai-agent/backend/src/dbass_ai_agent/operations/task_service.py:102-115 | the tasks flagged as announced are exactly those that some process marked, each of them once in the whole run |
| `SessionRuns.DecisionStampMayPassExpiry` | ai-agent/backend/src/dbass_ai_agent/operations/approval_service.py:250-272 | for every fresh approval: some run stamps its decision past its expiry exactly if it has an expiry that lies after the start |
| `SessionRuns.OthersStayWithinRely` | ai-agent/backend/src/dbass_ai_agent/sessions/run_lock.py:15-40 | any number of steps by other processes satisfies the contract of `Interfere` |
| `SessionStore.Session.Interfere` | ai-agent/backend/src/dbass_ai_agent/sessions/run_lock.py:15-40 | the others take protocol steps and the logs only grow |
| `SessionStore.Session.Commit` | ai-agent/backend/src/dbass_ai_agent/sessions/repository.py:80-103 | a change of the logs, the lock or the requests counts only as one enabled step of the protocol |
| `SessionStore.Session.TryAcquireRunLock` | ai-agent/backend/src/dbass_ai_agent/sessions/run_lock.py:15-23 | the lock is taken exactly if it is free; nothing else changes |
| `SessionStore.Session.FindApproval` | ai-agent/backend/src/dbass_ai_agent/operations/approval_service.py:697-701 | the search over the folded list finds the current record, and fails exactly if there is none |
| `SessionStore.Session.HasPendingApproval` | ai-agent/backend/src/dbass_ai_agent/operations/approval_service.py:378-382 | true exactly if the log has a pending approval |
| `SessionStore.Session.HasFailedExpiredResume` | ai-agent/backend/src/dbass_ai_agent/operations/approval_service.py:372-376 | true exactly if an expired approval's paused run is not cleaned up |
| `OperationService.CoversExactly` | ai-agent/backend/src/dbass_ai_agent/operations/operation_service.py:53-65 | an operation stands for a call exactly if it carries the id of the first listed call that fits, or belongs to the same approval and action and has a result on the same target |
| `OperationService.FirstCovering` | ai-agent/backend/src/dbass_ai_agent/operations/operation_service.py:53-65 | an operation carrying the call's id is preferred to one with the same targets; none is returned only if neither exists |
| `OperationService.FindExisting` | ai-agent/backend/src/dbass_ai_agent/operations/operation_service.py:43-69 | nothing is found exactly if no operation stands for the call; otherwise a current record that covers it, one with the call's own id if there is any |
| `OperationService.StartOperation` | ai-agent/backend/src/dbass_ai_agent/operations/operation_service.py:71-111 | if something stands for the call nothing is written; otherwise exactly one started operation for this call is added, under a fresh id |
| `OperationService.CompleteOperation` | ai-agent/backend/src/dbass_ai_agent/operations/operation_service.py:113-129 | whatever copy is in hand, it is appended with the outcome, and the log then shows exactly that |
| `OperationService.MarkStartedUnknown` | ai-agent/backend/src/dbass_ai_agent/operations/operation_service.py:157-170 | the copy in hand is closed as unknown, in record and result, and keeps its identity |
| `OperationService.CompletionIsStep` | ai-agent/backend/src/dbass_ai_agent/operations/operation_service.py:113-129 | from a current copy, under the lock and before a task of it has finished, completing is a step that the protocol allows |
| `WriteTools.FirstUnfinished` | ai-agent/backend/src/dbass_ai_agent/operations/task_service.py:57-64 | returns an unfinished task of the key, and none only if all tasks of the key have finished |
| `WriteTools.FindConflictingTask` | ai-agent/backend/src/dbass_ai_agent/operations/task_service.py:57-64 | reports a conflict exactly if an unfinished task of the key is in the log |
| `WriteTools.SendWrite` | ai-agent/backend/src/dbass_ai_agent/dbaas/write_tools.py:357-395 | the request counts as sent once; it is received exactly if the wire lets it through, and the client sees an answer, a timeout or an exception exactly as the wire has it |
| `WriteTools.CreateTaskRecord` | ai-agent/backend/src/dbass_ai_agent/operations/task_service.py:66-100 | adds one running task, under the fresh id the server gave, for an operation that had none |
| `WriteTools.RunSyncBody` | ai-agent/backend/src/dbass_ai_agent/dbaas/write_tools.py:33-152 | the resource and storage tools send the request unless the service cannot be read; an answer, a timeout or anything else is returned and recorded as succeeded, timeout or failed; only an uncaught exception is raised |
| `WriteTools.RunAsyncBody` | ai-agent/backend/src/dbass_ai_agent/dbaas/write_tools.py:276-430 | the upgrade and backup tools send the request exactly if no unfinished task is in the way; a task is recorded exactly if an answer names one; the tool returns, and records, `task_created`, timeout or failed accordingly |
| `WriteTools.RunWriteTool` | ai-agent/backend/src/dbass_ai_agent/operations/operation_service.py:43-111 | a call that an operation stands for is never sent again and is answered from that operation; if a crash left it without a result it is closed as unknown; any other call gets an operation of its own in the log, is sent unless the process dies, the service cannot be read or a task conflicts, and what comes back is what the tool says and records |
| `WriteTools.OthersAreNotCovered` | ai-agent/backend/src/dbass_ai_agent/operations/operation_service.py:53-65 | an operation for one of the listed calls leaves every other call to be run, if ids tell the calls apart and their targets differ |
| `WriteTools.EachHasItsOwn` | ai-agent/backend/src/dbass_ai_agent/operations/operation_service.py:177-194 | of calls that are told apart, an operation for one carries that call's id and stands by it for no other |
| `TaskService.SyncTerminalOperationStatus` | ai-agent/backend/src/dbass_ai_agent/operations/task_service.py:177-239 | appends exactly the record that makes the operation show what the finished task shows, or nothing |
| `TaskService.SyncedExactly` | ai-agent/backend/src/dbass_ai_agent/operations/task_service.py:177-258 | nothing is written for an unfinished task; after a finished one its operation shows the same end, with the targets it had or else the task's, and a reference to the task |
| `TaskService.CandidateShows` | ai-agent/backend/src/dbass_ai_agent/dbaas/task_status.py:10-20 | a polled task shows exactly what the server's words mean, field by field |
| `TaskService.RefreshTask` | ai-agent/backend/src/dbass_ai_agent/operations/task_service.py:117-175 | for any copy, current or not, forced or not: the task is running, succeeded, failed, canceled or unknown exactly for the server's words for it, with the other fields of the answer; without an answer only status and error change; the operation of a task that ends shows the same end |
| `TaskService.RefreshIsStep` | ai-agent/backend/src/dbass_ai_agent/operations/task_service.py:117-175 | from a current copy and without force that is a step of the protocol, changes this task and its operation only, and returns the current record |
| `TaskService.ListTasksWithLazyRefresh` | ai-agent/backend/src/dbass_ai_agent/operations/task_service.py:43-55 | one uninterrupted lazy refresh returns every task once, each as the server's answer to it makes it; approvals, lock and requests are untouched |
| `TaskService.MarkTerminalNoticeEmitted` | ai-agent/backend/src/dbass_ai_agent/operations/task_service.py:102-115 | exactly the tasks in hand get the flag, each at most once and by this process; everything else stays |
| `TaskEvents.AnnounceGroup` | ai-agent/backend/src/dbass_ai_agent/api/routes_tasks.py:186-208 | a group is announced exactly if one of its tasks was not announced before; the notice carries the whole group as marked, and every mark made is accounted for by it |
| `TaskEvents.VisitGroup` | ai-agent/backend/src/dbass_ai_agent/api/routes_tasks.py:177-208 | a group with an unfinished task is left alone; a finished one leaves the pending set with all its tasks marked; no mark goes without its notice and no group gets two |
| `TaskEvents.VisitGroups` | ai-agent/backend/src/dbass_ai_agent/api/routes_tasks.py:167-208 | whatever the others do while a notice is handed over: afterwards a task is pending only if its group has an unfinished task, every notice announces a complete, finished, marked group of its own, and every task marked stands in one |
| `TaskEvents.EmitPendingTerminalNotices` | ai-agent/backend/src/dbass_ai_agent/api/routes_tasks.py:138-208 | under the lock or not at all; every task marked by the call stands in a notice it returns, every notice tells of such a task, and no two are about one group; an id leaves the pending set only if its task is marked in the log, and with the lock free it stays only if its group has an unfinished task |
| `TaskEvents.ToldOnce` | ai-agent/backend/src/dbass_ai_agent/api/routes_tasks.py:167-208 | so within one call a task stands in one notice only |
| `TaskEvents.ComparePoll` | ai-agent/backend/src/dbass_ai_agent/api/routes_tasks.py:76-98 | reports exactly the tasks whose visible fields changed since the last poll, each once, and adds every unannounced finished task |
| `TaskEvents.Poll` | ai-agent/backend/src/dbass_ai_agent/api/routes_tasks.py:70-114 | lists every task as the server's answers make it; reports exactly the changed ones, all unfinished at the last poll; the tasks this turn marks are those its notices tell of; what is due is marked or still pending; the turn asks to close exactly if every listed task is finished and nothing is pending, and then all are marked |
| `TaskEvents.StreamSessionTaskEvents` | ai-agent/backend/src/dbass_ai_agent/api/routes_tasks.py:58-115 | over all its polls, whatever the others do, the tasks the stream marks are those that its notices told the client of, and what they told stays true; when it closes by itself every task of its last list has finished and is marked in the log |
| `ApprovalService.CreateApproval` | ai-agent/backend/src/dbass_ai_agent/operations/approval_service.py:104-173 | succeeds exactly if nothing is pending, the request is well formed and the role suffices; the one new pending approval lists the requested calls in order with their ids, calls for the requested role, and expires the given seconds, or else five minutes, after it was made |
| `ApprovalService.ResumeAgent` | ai-agent/backend/src/dbass_ai_agent/agent/runtime.py:174-235 | the agent's contract: set to work once, with this decision; resumed with approval it sends requests only for calls of this approval, resumed with rejection it sends none |
| `ApprovalService.NoticeCreation` | ai-agent/backend/src/dbass_ai_agent/operations/approval_service.py:676-695 | the flag is set exactly if it was set or the approval was approved and has tasks; nothing else changes |
| `ApprovalService.ResumeAndRecord` | ai-agent/backend/src/dbass_ai_agent/operations/approval_service.py:488-538 | fails exactly if the agent raises, and then the error and the time stand in the log; a success clears the failure, from a possibly stale copy, without touching the decision |
| `ApprovalService.ResumeDecided` | ai-agent/backend/src/dbass_ai_agent/operations/approval_service.py:474-557 | sets the agent to work once; sends only calls of the approval and only when approving; keeps the lock; the next approval is made exactly if the agent asks for one, this is allowed, nothing is pending and the request is well formed, and it is what was asked for |
| `ApprovalDecisions.ResumeExpiredCleanup` | ai-agent/backend/src/dbass_ai_agent/operations/approval_service.py:590-625 | tries the clean-up once, sends nothing, creates nothing, touches no waiting approval; a failure of the agent, and only that, is noted and not raised |
| `ApprovalDecisions.ResumeExpiredCleanupWithLock` | ai-agent/backend/src/dbass_ai_agent/operations/approval_service.py:559-588 | busy exactly if the lock is taken; otherwise re-reads under it and tries the clean-up exactly if it is still due; sends nothing and gives the lock back |
| `ApprovalDecisions.MarkExpired` | ai-agent/backend/src/dbass_ai_agent/operations/approval_service.py:652-663 | the one record that changes becomes expired, stamped with the current time and due for clean-up |
| `ApprovalDecisions.ExpireAndResume` | ai-agent/backend/src/dbass_ai_agent/operations/approval_service.py:627-650 | the approval is expired afterwards and its clean-up tried once; every other approval that waited waits unchanged |
| `ApprovalDecisions.ExpireOne` | ai-agent/backend/src/dbass_ai_agent/operations/approval_service.py:348-369 | expires the approval exactly if it waits and its time is up, and tries the clean-up then or if an earlier one had failed, exactly once |
| `ApprovalDecisions.ExpirePendingApprovals` | ai-agent/backend/src/dbass_ai_agent/operations/approval_service.py:338-370 | afterwards nothing waits that had expired when the call began, nothing has expired that had time left when it ended, and every clean-up that was due has been tried or was found done; nothing is sent |
| `ApprovalDecisions.NeedsExpirationCleanup` | ai-agent/backend/src/dbass_ai_agent/operations/approval_service.py:725-730 | true exactly if some approval waits past its expiry or an expired one is not cleaned up |
| `ApprovalDecisions.ExpireForQuery` | ai-agent/backend/src/dbass_ai_agent/operations/approval_service.py:72-102 | does nothing if nothing is due or the lock is taken; otherwise tries every clean-up due and leaves nothing overdue waiting; sends nothing, gives the lock back, and reports only approvals that are expired in the log |
| `ApprovalDecisions.HandleTerminalDecision` | ai-agent/backend/src/dbass_ai_agent/operations/approval_service.py:384-442 | conflict exactly if the decision differs from the recorded one; if resuming had failed before any operation was recorded it is tried again, unless the lock is taken, and the answer follows from the agent's reply; otherwise the record is returned, with the creation notice if it has tasks |
| `ApprovalDecisions.AssertNoTaskConflicts` | ai-agent/backend/src/dbass_ai_agent/operations/approval_service.py:758-794 | passes exactly if no two asynchronous calls share a conflict key and none meets an unfinished task |
| `ApprovalDecisions.RecordDecision` | ai-agent/backend/src/dbass_ai_agent/operations/approval_service.py:260-281 | the decision, the decider and the current time are in the log, and stay there through resuming, which is tried once; the answer follows from the agent's reply |
| `ApprovalDecisions.DecideWaiting` | ai-agent/backend/src/dbass_ai_agent/operations/approval_service.py:260-281 | with time left, an approval is rejected, approved or refused over a task conflict, each exactly when it should be |
| `ApprovalDecisions.DecideLocked` | ai-agent/backend/src/dbass_ai_agent/operations/approval_service.py:218-281 | under the lock, for every state: too late exactly if it is expired or its time is up, decided exactly if it waits with time left and, to be approved, without a task conflict, and otherwise answered as it was settled; what the agent is set to do follows |
| `ApprovalDecisions.Decide` | ai-agent/backend/src/dbass_ai_agent/operations/approval_service.py:175-281 | not found and forbidden exactly when they should be; refused over the lock exactly if the lock is needed and taken when it is tried; otherwise the answer, and whether a decision is recorded, follow from the state in which the lock was taken and from the agent's reply; every answer is true of the log when the call returns; requests are sent only for calls of this approval, approved; the lock is given back |
| `ApprovalDecisions.OverdueIsTooLate` | ai-agent/backend/src/dbass_ai_agent/operations/approval_service.py:104-281 | an approval made as requested is too late to decide once its seconds have passed since it was made, for everybody and either decision |
| `ApprovalDecisions.OverdueIsCleared` | ai-agent/backend/src/dbass_ai_agent/operations/approval_service.py:104-370 | and a clean-up that runs then leaves it waiting no longer and lets the agent see the refusal |
| `ApprovalDecisions.InTimeIsDecided` | ai-agent/backend/src/dbass_ai_agent/operations/approval_service.py:104-281 | while there is time left it is decided, exactly unless it is to be approved against a task conflict |
| `ChatRoutes.Accept` | ai-agent/backend/src/dbass_ai_agent/api/routes_chat.py:54-71 | refused as busy exactly if the lock is taken, and then nothing has happened; otherwise everything overdue is expired and every clean-up due is tried, and the message is refused exactly over an unfinished clean-up or a pending approval |
| `ChatRoutes.SendMessage` | ai-agent/backend/src/dbass_ai_agent/api/routes_chat.py:40-145 | what the sender is told follows exactly from the lock, the clean-up and the agent's reply; an approval is made exactly if the agent asks for a well-formed one, and is what was asked for; nothing is sent to DBAAS and the lock is given back |
| `ChatRoutes.ReceiveEvent` | ai-agent/backend/src/dbass_ai_agent/api/routes_chat.py:216-298 | only a request for approval changes the session; it fails exactly if it is ill formed, not for this user, or the second one |
| `ChatRoutes.StreamMessage` | ai-agent/backend/src/dbass_ai_agent/api/routes_chat.py:162-429 | takes the events up to the first pause or failing request; fails exactly if a request failed, no event closed the turn, or the agent raised before a pause; pauses exactly if an approval was asked for, the one that is then pending; otherwise the answer is the last final event's text or else the tokens added up; the lock is held throughout and given back |
| `SessionLimits.CompletionAgrees` | ai-agent/backend/src/dbass_ai_agent/operations/operation_service.py:113-129 | completing an operation from a copy keeps the agreement exactly if no task of it has finished with another status meanwhile |
| `SessionLimits.TaskCreatedComesTooLate` | ai-agent/backend/src/dbass_ai_agent/dbaas/write_tools.py:397-430 | reporting `task_created` after the task has finished always breaks it |
| `SessionLimits.OvertakenRefresh` | ai-agent/backend/src/dbass_ai_agent/operations/task_service.py:117-175 | a refresh written back from an older copy takes nothing back exactly if it writes nothing, the task is still unfinished, or it repeats what the log says and the notice is still due |
| `SessionLimits.OvertakenRefreshKeepsTasks` | ai-agent/backend/src/dbass_ai_agent/operations/task_service.py:164-239 | in these cases the task invariant survives |
| `SessionLimits.NoticeTakenBack` | ai-agent/backend/src/dbass_ai_agent/operations/task_service.py:164-175 | a case in which an announced task becomes unannounced again |
| `SessionLimits.ForcedRefreshRevives` | ai-agent/backend/src/dbass_ai_agent/operations/task_service.py:124-162 | a forced refresh leaves a final status exactly if the server answers with one that is not final; an error keeps it |
| `SessionLimits.CrashProtection` | ai-agent/backend/src/dbass_ai_agent/operations/operation_service.py:177-190 | after a crash right behind the start of an operation the call is sent again exactly if it has no id |
| `SessionLimits.CallsCollapse` | ai-agent/backend/src/dbass_ai_agent/operations/operation_service.py:59-65 | a finished call answers for another exactly if both name the same action and target or share their id |
| `SessionLimits.SecondUpdateIsSwallowed` | ai-agent/backend/src/dbass_ai_agent/operations/operation_service.py:59-65 | an approval of two updates of one service with different values, of which only the first is ever sent |
| `SnapshotProtocol.StepKeepsInv` | ai-agent/backend/src/dbass_ai_agent/dbaas/backup_sync.py:60-161 | every file step, lock step and fetch keeps the invariant of files, history and lock |
| `SnapshotRuns.DataNotOlderThanMeta` | ai-agent/backend/src/dbass_ai_agent/dbaas/backup_sync.py:119-161 | whenever a fresh meta is on disk it describes an answered fetch of its owner, and data beside it is the answer of a fetch that is not older, also after a death between the two replaces |
| `SnapshotRuns.NeverMixedExactlyIfAlone` | ai-agent/backend/src/dbass_ai_agent/dbaas/backup_sync.py:192-223 | data and fresh meta belong to the same owner in all runs exactly if one owner at most uses the directory |
| `SnapshotRuns.FetchOnlyAfterExpiry` | ai-agent/backend/src/dbass_ai_agent/dbaas/backup_sync.py:121-147 | without forced refreshes a fetch made after a snapshot was stored, by whomever, starts strictly after its expiry |
| `SnapshotRuns.FetchBound` | ai-agent/backend/src/dbass_ai_agent/dbaas/backup_sync.py:168-179 | snapshots stored by fetches that start within a window of length w number w / ttl + 1 at most |
| `SnapshotRuns.AnswersUnbounded` | ai-agent/backend/src/dbass_ai_agent/dbaas/backup_sync.py:119-161 | without storing there is no bound: any number of fetches can be answered at one moment |
| `SnapshotRuns.OthersStayWithinRely` | ai-agent/backend/src/dbass_ai_agent/dbaas/backup_sync.py:29-31 | any number of steps by other processes satisfies the contract of `Interfere`: under the lock only time passes |
| `SnapshotCache.DescribesLater` | ai-agent/backend/src/dbass_ai_agent/dbaas/backup_sync.py:54-57 | a reader that looks at the data file later than at the meta file is not misled by what happened in between |
| `SnapshotCache.Directory.Ask` | ai-agent/backend/src/dbass_ai_agent/dbaas/backup_sync.py:92-117 | exactly one fetch is recorded, by this process for the owner of the turn, and its answer if there is one |
| `SnapshotCache.Directory.Store` | ai-agent/backend/src/dbass_ai_agent/dbaas/backup_sync.py:119-161 | data first, then meta; it succeeds exactly if no write fails and then leaves both from the same fetch with the expiry one time to live ahead; a failure leaves the meta untouched and the data as the failed write has it |
| `SnapshotCache.Directory.NoteFailure` | ai-agent/backend/src/dbass_ai_agent/dbaas/backup_sync.py:81-88 | after a forced refresh a snapshot that is still fresh survives with the error noted, otherwise the data is gone before the meta says so; raised exactly if noting fails |
| `SnapshotCache.Directory.RefreshLocked` | ai-agent/backend/src/dbass_ai_agent/dbaas/backup_sync.py:71-88 | a snapshot that is fresh under the lock is served without a fetch unless one is forced; otherwise there is exactly one fetch and the outcome follows from the answer and the writes |
| `SnapshotCache.Directory.RefreshUnderLock` | ai-agent/backend/src/dbass_ai_agent/dbaas/backup_sync.py:60-90 | refused exactly with the lock held by another and nothing fetched; a forced refresh fetches exactly once, any other at most once, and if it fetches the answer and the writes decide; a snapshot handed out describes an answered fetch of the caller's owner; the lock is given back |
| `SnapshotCache.Directory.EnsureSnapshot` | ai-agent/backend/src/dbass_ai_agent/dbaas/backup_sync.py:39-58 | a snapshot that is fresh at the first look is handed out at once unless a refresh is asked for; otherwise the call does what a refresh under the lock does; whoever is handed a snapshot got one that was fresh for its owner during the call, with data that is not older |
| `SnapshotPaths.SafeFilenamePart` | ai-agent/backend/src/dbass_ai_agent/dbaas/workspace.py:22-106 | never empty, and made of letters, digits, dots, underscores and hyphens only |
| `SnapshotPaths.RunBecomesOne` | ai-agent/backend/src/dbass_ai_agent/dbaas/workspace.py:22-106 | a run of forbidden characters becomes one underscore, whatever stands before and after it |
| `SnapshotPaths.FixedExactlyIfSafe` | ai-agent/backend/src/dbass_ai_agent/dbaas/workspace.py:22-106 | a name is left alone exactly if it is not empty and holds allowed characters only |
| `SnapshotPaths.SafeTwice` | ai-agent/backend/src/dbass_ai_agent/dbaas/workspace.py:102-106 | making a name safe twice is making it safe once |
| `SnapshotPaths.NowhereMixedExactlyIfApart` | ai-agent/backend/src/dbass_ai_agent/dbaas/workspace.py:48-66 | no directory ever mixes owners exactly if no two owners have the same path |
| `SnapshotPaths.SafeNamesStayApart` | ai-agent/backend/src/dbass_ai_agent/dbaas/workspace.py:48-66 | which holds if all user names are safe |
| `SnapshotPaths.CollidingUsers` | ai-agent/backend/src/dbass_ai_agent/dbaas/workspace.py:48-66 | and fails for two names that differ in a forbidden character |
| `MetricCleanup.Directory.CleanupDir` | ai-agent/backend/src/dbass_ai_agent/dbaas/metric_cleanup.py:114-158 | for some order of the metas the directory is what both loops make of it, and the counters say what was found |
| `MetricCleanupLaws.VerdictExactly` | ai-agent/backend/src/dbass_ai_agent/dbaas/metric_cleanup.py:123-183 | each verdict on a meta, in terms of what it holds and what stands beside it |
| `MetricCleanupLaws.ScrubLeft` | ai-agent/backend/src/dbass_ai_agent/dbaas/metric_cleanup.py:123-143 | if the names pair off, one turn of the loop deletes exactly the files that the meta's verdict on the untouched directory calls for, whatever metas came before it |
| `MetricCleanupLaws.CleanedWell` | ai-agent/backend/src/dbass_ai_agent/dbaas/metric_cleanup.py:114-158 | if the names pair off, the metas that remain are exactly those that can be read, name the data file beside them, which is there, and have not expired; they keep their data, and files that are neither stay |
| `MetricCleanupLaws.WellStaysWell` | ai-agent/backend/src/dbass_ai_agent/dbaas/metric_cleanup.py:114-158 | a second cleaning at the same time deletes nothing |
| `MetricCleanupLaws.CountersMatch` | ai-agent/backend/src/dbass_ai_agent/dbaas/metric_cleanup.py:117-143 | each counter is the number of metas there were of its kind |
| `MetricCleanupLaws.WellIsPaired` | ai-agent/backend/src/dbass_ai_agent/dbaas/metric_cleanup.py:161-168 | afterwards metas and data files correspond one to one, exactly if there is no data file without a key |
| `MetricCleanupLaws.OnceIsNotEnough` | ai-agent/backend/src/dbass_ai_agent/dbaas/metric_cleanup.py:161-168 | names that do not pair off can be given contents for which the second cleaning deletes something |
| `MetricCleanupLaws.OnceIsEnoughExactlyIfTidy` | ai-agent/backend/src/dbass_ai_agent/dbaas/metric_cleanup.py:114-168 | one cleaning is enough for all contents and orders exactly if the names pair off |
| `MetricCleanupLaws.OrdinaryKeysAreTidy` | ai-agent/backend/src/dbass_ai_agent/dbaas/metric_cleanup.py:161-168 | which they do if no key is empty or ends in `.meta` |
| `SseCodec.NoEarlierBlockEnd` | ai-agent/frontend/app.js:729-730 | a block end that only later text completes cannot start before one that is complete |
| `SseCodec.SplitBlocksAppend` | ai-agent/frontend/app.js:724-730 | cutting what has arrived, and later the rest with what follows, cuts the whole |
| `SseCodec.ParseSseBlock` | ai-agent/frontend/app.js:681-712 | the loop over the lines yields the last event name and all data values joined, or nothing without data, and throws exactly if that data does not decode |
| `SseCodec.ReadSseResponse` | ai-agent/frontend/app.js:714-748 | for every text, every way of cutting it and every decoder of payloads the callbacks are those of one look at the whole text, up to the first payload that does not decode, where reading throws |
| `SseCodec.RoundTrip` | ai-agent/backend/src/dbass_ai_agent/api/routes_chat.py:442-444 | events printed by the backend, with one-line names and data, are delivered as they were, in order and nothing else, wherever the stream is cut |
| `SseCodec.UnterminatedIsDelivered` | ai-agent/frontend/app.js:741-747 | an event whose closing line feeds are missing at the end of the stream is delivered too, without the blanks its data ends in |
| `SseStandard.LinesMeetExactly` | ai-agent/frontend/app.js:682 | the reader's lines are those of the standard exactly if no CR stands alone |
| `SseStandard.StandardIsRenamed` | ai-agent/frontend/app.js:681-748 | without lone CRs the standard's events are those of the complete blocks, with the default name for an empty one; the reader's are those blocks' and the rest's |
| `SseStandard.MeetsStandardExactly` | ai-agent/frontend/app.js:681-748 | without lone CRs the reader delivers what the standard does exactly if no data is left behind the last blank line and no event is named by an empty value |
| `SseStandard.UnixMeetsStandardExactly` | ai-agent/frontend/app.js:681-748 | for every text: with its line ends written as LF the reader delivers what the standard delivers for the text as it was, under the same exact condition |
| `SseStandard.PrintedMeetsExactly` | ai-agent/backend/src/dbass_ai_agent/api/routes_chat.py:442-444 | printed events come back from the page always, and from the standard exactly if all have names and none holds a CR |
| `SseStandard.LoneCrIsKept` | ai-agent/frontend/app.js:682 | a CR in the data reaches the page's callback and not that of the standard |
| `SseStandard.EmptyNameIsKept` | ai-agent/frontend/app.js:695-697 | an empty event value names the event on the page and not in the standard |
| `SseStandard.UnfinishedIsDelivered` | ai-agent/frontend/app.js:741-747 | an unfinished event is delivered by the page and discarded by the standard, for all events before it |
| `SseStandard.EmptyDataIsDelivered` | ai-agent/backend/src/dbass_ai_agent/api/routes_chat.py:442-444 | an event with an empty data line is delivered by both |
| `PlatformTree.HealthOf` | mock-server/app/store/json_store.py:2517-2528 | a list of health states aggregates to unhealthy exactly if at least half of it, and something, is unhealthy, to healthy exactly if nothing is unhealthy or gives a warning, and to a warning otherwise |
| `PlatformLaws.ShownUsedExactly` | mock-server/app/store/json_store.py:1336-1341 | a device shows the smaller of capacity and base plus sizes, for all capacities and bases, exactly if no proper tail of the sizes is negative in sum |
| `PlatformLaws.DeviceShowsUse` | mock-server/app/store/json_store.py:1372-1380 | so it does on an agreeing platform whose volumes have no negative size, and the rest of the capacity is shown as available |
| `PlatformLaws.UnitsConserved` | mock-server/app/store/json_store.py:1326-1334 | unit counts of hosts and of clusters both add up to the number of units |
| `PlatformLaws.HostsAndClustersConserved` | mock-server/app/store/json_store.py:1313-1321 | host counts of clusters and of sites add up to the hosts, cluster counts of sites to the clusters |
| `PlatformLaws.ServicesConserved` | mock-server/app/store/json_store.py:1323-1355 | service group counts of sites add up to the service groups |
| `PlatformLaws.RefreshOnce` | mock-server/app/store/json_store.py:1286-1355 | agreeing with the tree is being refreshed, and a second refresh changes nothing, health included |
| `PlatformLaws.AgreesOnlyOnce` | mock-server/app/store/json_store.py:1286-1355 | two platforms with the same tree that agree with it are the same |
| `PlatformStore.Store.CountServices` | mock-server/app/store/json_store.py:1323-1346 | the nested loops place every unit once and note every service's name and health once per cluster it touches and at its site |
| `PlatformStore.CountedAllMore` | mock-server/app/store/json_store.py:1328-1341 | counting one more unit in, one unit, its CPU and memory, and both volumes up to the capacity, data before log, gives on every host what counting the longer list gives |
| `PlatformStore.Store.RefreshPlatformAggregates` | mock-server/app/store/json_store.py:1286-1380 | afterwards every summary field of hosts, devices, clusters and sites agrees with the tree, and the tree is as before |
| `PlatformUpdates.ChangeService` | mock-server/app/store/json_store.py:366-392 | exactly the units of the service's children of the type change, in exactly the fields asked for; unknown service and type are reported and change nothing |
| `PlatformUpdates.EachUnit` | mock-server/app/store/json_store.py:366-392 | unit by unit: those of the service's children of the type have the values asked for and are otherwise as they were, and no other unit differs |
| `PlatformUpdates.UpdateServiceStorage` | mock-server/app/store/json_store.py:366-394 | the summaries agree with the changed tree afterwards, so agreement survives any sequence of such calls |
| `PlatformUpdates.UpdateServiceResources` | mock-server/app/store/json_store.py:340-364 | only CPU and memory of those units change, and no summary |
| `PlatformUpdates.ResourcesLeaveAgreement` | mock-server/app/store/json_store.py:340-364 | that leaves the summaries right exactly if no host's CPU or memory total moves |
| `MockTasks.UpgradedVersion` | mock-server/app/store/json_store.py:2427-2437 | always four parts: those of the target, zeros up to the third, and then the unit's own fourth part, or 1 if it has none |
| `MockTasks.StepKeepsInv` | mock-server/app/store/json_store.py:2372-2490 | every section under the lock, of any worker, keeps the invariant of tasks, workers, units and records |
| `MockTaskRuns.LeavesRunningOnce` | mock-server/app/store/json_store.py:2372-2490 | for any schedule a task leaves RUNNING once at most and stays as it is then |
| `MockTaskRuns.SuccessMeansWritten` | mock-server/app/store/json_store.py:2394-2425 | a successful upgrade has written each of its units, in order and no other |
| `MockTaskRuns.LastWriterShows` | mock-server/app/store/json_store.py:2404-2417 | a unit shows the image and version of the last write to it, applied to what was there before |
| `MockTaskRuns.UnnamedUnitsUnchanged` | mock-server/app/store/json_store.py:2394-2417 | a unit that no task names is as it was at the start |
| `MockTaskRuns.BackupIdsUnique` | mock-server/app/store/json_store.py:2544-2551 | no two backup records have the same id |
| `MockTaskRuns.RecordsFollowTheirTask` | mock-server/app/store/json_store.py:2439-2490 | a record made by a task is running exactly while the task is, and then says how it ended |
| `MockTaskRuns.OthersStayWithinRely` | mock-server/app/store/json_store.py:2361-2392 | any number of steps of other tasks satisfies the contract of `Interfere` |
| `MockTaskStore.Store.RunImageUpgrade` | mock-server/app/store/json_store.py:2394-2425 | the worker always ends its task, with success exactly if no unit raises and then with every unit written in order; otherwise with the reason of the first exception and exactly the units before it written |
| `MockTaskStore.Store.RunBackup` | mock-server/app/store/json_store.py:2439-2471 | the worker always ends its task, and its records with it: with success exactly if nothing raises, and otherwise with that reason |
| `MockTaskStore.Store.MarkTaskFailed` | mock-server/app/store/json_store.py:2473-2490 | the task fails with the reason given, no unit is written and no other task changes |
| `MockTaskStore.Store.CreateImageUpgradeTask` | mock-server/app/store/json_store.py:396-438 | refused exactly if service, type or a unit is unknown, with exactly the unknown names; otherwise one running task for the units chosen, all of them known |
| `MockTaskStore.Store.CreateBackupTask` | mock-server/app/store/json_store.py:496-590 | each refusal exactly when scope, service or unit calls for it; otherwise one running record, with an id of its own, for each unit of the service that the scope selects, all of the new task |
| `MockTaskStore.Store.ResolveBackup` | mock-server/app/store/json_store.py:1990-2051 | a named unit must be one of this service, and a name that several services use stands for the first of them; the targets are the units the scope selects |
| `SqlLiterals.ParseSqlString` | ai-agent/scripts/generate_metric_catalog.py:119-136 | reads the string after the quote and stops just past its closing quote, or finds it unterminated |
| `SqlLiterals.ParseValues` | ai-agent/scripts/generate_metric_catalog.py:90-116 | terminates, and returns field by field what the text holds, or the first error |
| `SqlLiterals.StringRoundTrip` | ai-agent/scripts/generate_metric_catalog.py:119-136 | whatever mixture of doubled quotes and backslashes was chosen, the string is read back |
| `SqlLiterals.IntParsed` | ai-agent/scripts/generate_metric_catalog.py:105-109 | integers in decimal, also negative, are read back |
| `SqlLiterals.RowRoundTrip` | ai-agent/scripts/generate_metric_catalog.py:90-116 | every row of NULLs, integers and strings is read back, whatever the quoting, the case of NULL and the blanks around commas |
| `ToolCallMatching.LastToolCalls` | ai-agent/backend/src/dbass_ai_agent/agent/runtime.py:546-554 | the calls are those of the last message that has any |
| `ToolCallMatching.FindMatching` | ai-agent/backend/src/dbass_ai_agent/agent/runtime.py:645-660 | the first unused call that fits, and none only if every fitting call is used |
| `ToolCallMatching.FindInterruptedToolCallIds` | ai-agent/backend/src/dbass_ai_agent/agent/runtime.py:541-577 | each request in turn gets the first free call with its own arguments, or else the first free call of its name, or else none; no call is given to two requests, a request is left without exactly if earlier ones have used up its name, and every request gets a call with its own arguments exactly if the calls cover the requests |
| `ToolCallMatching.ExactIsCovered` | ai-agent/backend/src/dbass_ai_agent/agent/runtime.py:541-577 | different calls with the requested arguments for all requests are a cover of them |
| `ToolCallMatching.FallbackTakesAway` | ai-agent/backend/src/dbass_ai_agent/agent/runtime.py:565-571 | a case without that cover, in which any matching the method may return takes the call away from the request it would have fitted exactly |
| `SessionIndex.ByRecency` | ai-agent/backend/src/dbass_ai_agent/sessions/repository.py:127-132 | sorting keeps the items |
| `SessionIndex.Sorted` | ai-agent/backend/src/dbass_ai_agent/sessions/repository.py:127-132 | and puts them in descending recency with ids still distinct |
| `SessionIndex.UpsertAgrees` | ai-agent/backend/src/dbass_ai_agent/sessions/repository.py:113-132 | putting an item in its place keeps one item per session, showing its meta, in order |
| `SessionIndex.Repository.CreateSession` | ai-agent/backend/src/dbass_ai_agent/sessions/service.py:54-84 | the new session has its meta, with the stripped title or the default one, and its item; the index agrees with all metas and no other item changes |
| `SessionIndex.Repository.SetArchived` | ai-agent/backend/src/dbass_ai_agent/sessions/service.py:107-123 | exactly status, archive time and update time change, in meta and item, which previews the last message; no other item changes; a wrong id or role changes nothing |
| `SessionIndex.Repository.AppendMessage` | ai-agent/backend/src/dbass_ai_agent/sessions/service.py:143-228 | an archived session comes back to life first; a system message repeated within the window is dropped, exactly then; otherwise the message is logged, a session with the default title is named by the user's message, and the item shows it all; no other item changes |
| `SessionIndex.StripCuts` | ai-agent/backend/src/dbass_ai_agent/sessions/service.py:54-84 | stripping a title cuts blanks off both ends and nothing else |
| `SessionIndex.TitleFrom` | ai-agent/backend/src/dbass_ai_agent/sessions/service.py:251-261 | the default title for a message without words; otherwise the compacted message, cut off after 24 characters if it is longer |
| `SessionIndex.Preview` | ai-agent/backend/src/dbass_ai_agent/sessions/service.py:251-261 | the compacted message, cut off after 80 characters if it is longer |
| `SessionIndex.CompactTwice` | ai-agent/backend/src/dbass_ai_agent/sessions/service.py:251-261 | compacting a text for a title or a preview keeps its words, is done after once, and gives nothing exactly for blank texts |
| `SessionIndex.Repository.DeleteSession` | ai-agent/backend/src/dbass_ai_agent/sessions/service.py:125-135 | exactly this session's item, meta and messages go |
| `SessionIndex.Repository.ListSessions` | ai-agent/backend/src/dbass_ai_agent/sessions/service.py:26-35 | exactly the sessions of the role in hand, most recent first |

## Left out

What the model takes from its surroundings in a simpler form:

- Tool arguments are a target and a map of the other arguments; how a target is computed from them is not modelled.
- The conflict key is the action with the multiset of targets, not the string built from them, in which different targets
  could in principle be spelled the same.
- A task's source status is taken as already stripped and upper-cased.
- The groups of one poll are visited in any order, not sorted by task id.
- Message texts, summaries, logging and leases.
- Which texts `JSON.parse` accepts: a parameter of the reader.
- The order in which the child services of one service are backed up; backup types, retention and options.
- Tools run outside an approval, and the search for started operations that belongs to them.
- Requests and responses over HTTP, JSON text, UTF-8 decoding, the jq process, configuration and the page's user interface.
- The agent itself, its prompts and its memory: see the assumptions above.
- The seed data of the mock server, its metrics, prechecks, percentages and rounding to one decimal.
- The other snapshot synchronisers, which are near copies of the one modelled; the one for services refreshes without a lock
  for administrators.
- Temporary files and their clean-up, and the schema version and path in a meta, which are the same throughout one deployment.
- Several servers on one data directory: the locks are those of one process.

Contracts that say less than they could:

- SessionStore.Session.Interfere: has an empty body on purpose; only its contract, which the run theorems justify, is used.
- SnapshotCache.Directory.Interfere: has an empty body for the same reason.
- MockTaskStore.Store.Interfere: has an empty body for the same reason.
- ApprovalDecisions.AssertNoTaskConflicts: reads the task log without letting others run in between; under the run lock a refresh can only remove a conflict.
- TaskService.ListTasksWithLazyRefresh: is one uninterrupted refresh; SessionLimits.OvertakenRefresh says when an overtaken one does harm.
- SseStandard.MeetsStandardExactly: leaves out texts with lone CRs, which SseStandard.UnixMeetsStandardExactly covers once their line ends are written as LF, and SseStandard.PrintedMeetsExactly for printed events.
- ApprovalService.ResumeAgent: is the agent's contract rather than the agent; which of the approval's calls it runs, and how often, is left open.
- TaskEvents.StreamSessionTaskEvents: does not say in which order the events of different polls and groups are sent.
- SqlLiterals.ParseValues: reads integers in ASCII digits with single underscores; other decimal digits that Python accepts are errors here.
