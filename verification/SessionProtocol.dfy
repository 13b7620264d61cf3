/** The approval / operation / task protocol of one chat session as a transition system.
    A state holds what the three logs fold to, the run lock, the clock and the write requests the
    DBAAS server has received; a step is one append, one lock action, one request or a clock tick. */
module SessionProtocol {
  import opened Wrappers
  import opened SessionRecords

  datatype Hold = Hold(holder: Pid, since: Time)

  /** The agent set to work again on a decided approval. */
  datatype Resume = Resume(holder: Pid, aid: nat, decision: Decision)

  /** A task marked as announced. */
  datatype Mark = Mark(holder: Pid, tid: nat)

  /** One write request, as it is sent and as the DBAAS server receives it. */
  datatype Write = Write(operationId: nat, toolCallId: Option<string>, call: ToolCall, writer: Pid)

  datatype State = State(
    approvals: map<nat, Approval>, operations: map<nat, Operation>, tasks: map<nat, Task>,
    lock: Option<Hold>, now: Time, writes: seq<Write>,
    checks: map<nat, Time>,   // when the expiry of a decided approval was last looked at
    tries: seq<Write>,        // write requests sent, whether or not they arrived
    resumes: seq<Resume>,
    marks: seq<Mark>)         // tasks marked as announced, in this order

  predicate Holds(p: Pid, s: State) { s.lock.Some? && s.lock.value.holder == p }

  /** What the server answers when a task is polled. */
  datatype Answer = NoAnswer(error: string)
                  | Answer(status: Option<string>, message: Option<string>, reason: Option<string>,
                           result: Option<string>)

  datatype Step =
    | Ticked(now: Time)
    | LockTaken
    | LockReleased
    | ApprovalCreated(approval: Approval)
    | ApprovalDecided(aid: nat, decision: Decision, user: Identity, checkedAt: Time)
    | ApprovalExpired(aid: nat)
    | ApprovalRewritten(approval: Approval)
    | OperationStarted(operation: Operation, call: ToolCall)
    | WriteTried(oid: nat, call: ToolCall)
    | WriteIssued(oid: nat, call: ToolCall)
    | AgentResumed(aid: nat, decision: Decision)
    | TaskRecorded(task: Task)
    | OperationCompleted(oid: nat, result: OperationResult)
    | TaskRefreshed(tid: nat, answer: Answer)
    | NoticeMarked(tid: nat)

  // ---------------------------------------------------------------- pieces of steps

  predicate NoPending(s: State) { forall a :: a in s.approvals ==> !s.approvals[a].status.Pending? }

  predicate FreshPending(a: Approval)
  {
    a.status.Pending? && a.decidedBy.None? && a.decidedAt.None? && a.expiredAt.None? && !a.resume.failed
    && !a.creationNotice
  }

  function Decided(a: Approval, d: Decision, user: Identity, now: Time): Approval
  {
    a.(status := StatusOf(d), decidedBy := Some(user), decidedAt := Some(now), resume := ResumeInfo(false, None, None))
  }

  const CLEANUP_PENDING := "expired, waiting for the paused run to be cleaned up"

  function MarkedExpired(a: Approval, now: Time): Approval
  {
    a.(status := Expired, expiredAt := Some(now), resume := ResumeInfo(true, Some(CLEANUP_PENDING), None))
  }

  /** The call is one the approval lists, and the operation is the record that stands for it. */
  predicate StandsFor(o: Operation, a: Approval, call: ToolCall)
  {
    o.approvalId == Some(a.id) && call in a.calls && o.action == call.action
    && o.toolCallId == FindInterruptedToolCallId(a.calls, call.action, call.args)
  }

  predicate Unprotected(o: Operation, operations: map<nat, Operation>)
  {
    o.toolCallId.Some? ==> forall i :: i in operations ==> operations[i].toolCallId != o.toolCallId
  }

  predicate NoTerminalTaskOf(oid: nat, tasks: map<nat, Task>)
  {
    forall t :: t in tasks && tasks[t].operationId == oid ==> !Terminal(tasks[t])
  }

  predicate NoTaskOf(oid: nat, tasks: map<nat, Task>)
  {
    forall t :: t in tasks ==> tasks[t].operationId != oid
  }

  predicate NoConflict(key: ConflictKey, tasks: map<nat, Task>)
  {
    forall t :: t in tasks && tasks[t].conflictKey == key ==> Terminal(tasks[t])
  }

  /** `refresh_task`: the record one poll of the server would write. */
  function Candidate(t: Task, answer: Answer): Task
  {
    match answer
    case NoAnswer(e) => t.(view := t.view.(status := RefreshFailed, lastError := Some(e)))
    case Answer(status, message, reason, result) =>
      t.(view := TaskView(MapDbaasTaskStatus(status), status, message, reason, result, None))
  }

  function SyncedResult(o: Operation, t: Task, status: OperationStatus): OperationResult
  {
    if o.result.Some? then
      var taskId := if o.result.value.task.Some? then o.result.value.task.value.taskId else t.id;
      o.result.value.(status := status, task := Some(TaskRef(taskId, t.view.status)))
    else OperationResult(status, t.targets, Some(TaskRef(t.id, t.view.status)))
  }

  predicate OperationShows(o: Operation, status: OperationStatus)
  {
    o.status == status && o.result.Some? && o.result.value.status == status
  }

  /** `_sync_terminal_operation_status`: what the operations fold to after a task has finished. */
  function SyncOperation(operations: map<nat, Operation>, t: Task): (r: map<nat, Operation>)
    ensures r.Keys == operations.Keys
    ensures forall i :: i in operations && i != t.operationId ==> r[i] == operations[i]
    ensures t.operationId in operations ==> SameOperation(r[t.operationId], operations[t.operationId])
    ensures t.operationId in operations && operations[t.operationId].result.Some? ==> r[t.operationId].result.Some?
    ensures t.operationId in operations && Terminal(t) ==>
              OperationShows(r[t.operationId], OperationStatusFromTask(t.view.status).value)
  {
    var status := OperationStatusFromTask(t.view.status);
    if status.None? || t.operationId !in operations then operations
    else
      var o := operations[t.operationId];
      if OperationShows(o, status.value) then operations
      else operations[t.operationId := o.(status := status.value, result := Some(SyncedResult(o, t, status.value)))]
  }

  predicate GroupTerminal(t: Task, s: State)
  {
    forall u :: u in s.tasks && TaskNoticeGroup(s.tasks[u], s.operations) == TaskNoticeGroup(t, s.operations) ==>
                  Terminal(s.tasks[u])
  }

  // ---------------------------------------------------------------- steps

  predicate Enabled(p: Pid, s: State, step: Step)
  {
    match step
    case Ticked(now) => s.now <= now
    case LockTaken => s.lock.None?
    case LockReleased => Holds(p, s)
    case ApprovalCreated(a) =>
      Holds(p, s) && a.id !in s.approvals && NoPending(s) && FreshPending(a)
    case ApprovalDecided(aid, d, user, checkedAt) =>
      && Holds(p, s) && aid in s.approvals && s.approvals[aid].status.Pending?
      && s.lock.value.since <= checkedAt <= s.now && !IsExpired(s.approvals[aid], checkedAt)
      && (s.approvals[aid].adminOnly ==> user.admin)
    case ApprovalExpired(aid) =>
      Holds(p, s) && aid in s.approvals && s.approvals[aid].status.Pending? && IsExpired(s.approvals[aid], s.now)
    case ApprovalRewritten(a) =>
      a.id in s.approvals && !s.approvals[a.id].status.Pending? && SameDecision(a, s.approvals[a.id])
    case OperationStarted(o, call) =>
      && Holds(p, s) && o.id !in s.operations && o.status == Started && o.result == None
      && o.approvalId.Some? && o.approvalId.value in s.approvals
      && s.approvals[o.approvalId.value].status.Approved?
      && StandsFor(o, s.approvals[o.approvalId.value], call) && Unprotected(o, s.operations)
    case WriteTried(oid, call) =>
      && Holds(p, s) && oid in s.operations && (forall w :: w in s.tries ==> w.operationId != oid)
      && s.operations[oid].approvalId.Some? && s.operations[oid].approvalId.value in s.approvals
      && StandsFor(s.operations[oid], s.approvals[s.operations[oid].approvalId.value], call)
    case WriteIssued(oid, call) =>
      && Holds(p, s) && oid in s.operations && (forall w :: w in s.writes ==> w.operationId != oid)
      && Write(oid, s.operations[oid].toolCallId, call, p) in s.tries
    case AgentResumed(aid, d) =>
      && Holds(p, s) && aid in s.approvals && !s.approvals[aid].status.Pending?
      && (d == Approve ==> s.approvals[aid].status.Approved?)
    case TaskRecorded(t) =>
      && Holds(p, s) && t.id !in s.tasks && t.operationId in s.operations && NoTaskOf(t.operationId, s.tasks)
      && !Terminal(t) && !t.noticeEmitted && NoConflict(t.conflictKey, s.tasks)
    case OperationCompleted(oid, result) =>
      Holds(p, s) && oid in s.operations && NoTerminalTaskOf(oid, s.tasks)
    case TaskRefreshed(tid, answer) =>
      tid in s.tasks && !Terminal(s.tasks[tid])
    case NoticeMarked(tid) =>
      Holds(p, s) && tid in s.tasks && !s.tasks[tid].noticeEmitted && GroupTerminal(s.tasks[tid], s)
  }

  function Apply(p: Pid, s: State, step: Step): State
    requires Enabled(p, s, step)
  {
    match step
    case Ticked(now) => s.(now := now)
    case LockTaken => s.(lock := Some(Hold(p, s.now)))
    case LockReleased => s.(lock := None)
    case ApprovalCreated(a) => s.(approvals := s.approvals[a.id := a])
    case ApprovalDecided(aid, d, user, checkedAt) =>
      s.(approvals := s.approvals[aid := Decided(s.approvals[aid], d, user, s.now)],
         checks := s.checks[aid := checkedAt])
    case ApprovalExpired(aid) => s.(approvals := s.approvals[aid := MarkedExpired(s.approvals[aid], s.now)])
    case ApprovalRewritten(a) => s.(approvals := s.approvals[a.id := a])
    case OperationStarted(o, call) => s.(operations := s.operations[o.id := o])
    case WriteTried(oid, call) => s.(tries := s.tries + [Write(oid, s.operations[oid].toolCallId, call, p)])
    case WriteIssued(oid, call) => s.(writes := s.writes + [Write(oid, s.operations[oid].toolCallId, call, p)])
    case AgentResumed(aid, d) => s.(resumes := s.resumes + [Resume(p, aid, d)])
    case TaskRecorded(t) => s.(tasks := s.tasks[t.id := t])
    case OperationCompleted(oid, result) =>
      s.(operations := s.operations[oid := s.operations[oid].(status := result.status, result := Some(result))])
    case TaskRefreshed(tid, answer) =>
      var t := Candidate(s.tasks[tid], answer);
      if t.view == s.tasks[tid].view then s
      else s.(tasks := s.tasks[tid := t], operations := SyncOperation(s.operations, t))
    case NoticeMarked(tid) =>
      s.(tasks := s.tasks[tid := s.tasks[tid].(noticeEmitted := true)], marks := s.marks + [Mark(p, tid)])
  }

  // ---------------------------------------------------------------- the invariant

  predicate ApprovalOk(a: Approval, s: State)
  {
    match a.status
    case Pending => a.decidedBy.None? && a.decidedAt.None? && a.expiredAt.None?
    case Expired =>
      && a.decidedBy.None? && a.decidedAt.None? && a.expiredAt.Some?
      && IsExpired(a, a.expiredAt.value) && a.expiredAt.value <= s.now
    case _ =>
      && a.decidedBy.Some? && a.decidedAt.Some? && a.expiredAt.None? && a.decidedAt.value <= s.now
      && (a.adminOnly ==> a.decidedBy.value.admin)
      && a.id in s.checks && s.checks[a.id] <= a.decidedAt.value && !IsExpired(a, s.checks[a.id])
  }

  predicate ApprovalsOk(s: State)
  {
    && (forall i :: i in s.approvals ==> s.approvals[i].id == i && ApprovalOk(s.approvals[i], s))
    && (forall i, j :: i in s.approvals && j in s.approvals && i != j ==>
                         !s.approvals[i].status.Pending? || !s.approvals[j].status.Pending?)
    && (s.lock.Some? ==> s.lock.value.since <= s.now)
  }

  /** The operation stands for a call of an approval that was approved. */
  predicate Consented(o: Operation, s: State)
  {
    && o.approvalId.Some? && o.approvalId.value in s.approvals
    && s.approvals[o.approvalId.value].status.Approved?
    && exists call :: call in s.approvals[o.approvalId.value].calls
                      && StandsFor(o, s.approvals[o.approvalId.value], call)
  }

  /** No two operations carry the same tool call id. */
  predicate ToolCallIdsDistinct(operations: map<nat, Operation>)
  {
    forall i, j :: i in operations && j in operations && i != j && operations[i].toolCallId.Some? ==>
                     operations[i].toolCallId != operations[j].toolCallId
  }

  predicate OperationsOk(s: State)
  {
    && (forall i :: i in s.operations ==> s.operations[i].id == i && Consented(s.operations[i], s))
    && ToolCallIdsDistinct(s.operations)
  }

  predicate WriteOk(w: Write, s: State)
  {
    && w.operationId in s.operations && w.toolCallId == s.operations[w.operationId].toolCallId
    && s.operations[w.operationId].approvalId.Some? && s.operations[w.operationId].approvalId.value in s.approvals
    && StandsFor(s.operations[w.operationId], s.approvals[s.operations[w.operationId].approvalId.value], w.call)
  }

  /** Every request stands for an operation, and an operation for one request at most. */
  predicate RequestsOk(requests: seq<Write>, s: State)
  {
    && (forall i :: 0 <= i < |requests| ==> WriteOk(requests[i], s))
    && (forall i, j :: 0 <= i < j < |requests| ==> requests[i].operationId != requests[j].operationId)
  }

  predicate WritesOk(s: State)
  {
    RequestsOk(s.tries, s) && RequestsOk(s.writes, s) && forall w :: w in s.writes ==> w in s.tries
  }

  predicate ResumesOk(s: State)
  {
    forall r :: r in s.resumes ==>
      && r.aid in s.approvals && !s.approvals[r.aid].status.Pending?
      && (r.decision == Approve ==> s.approvals[r.aid].status.Approved?)
  }

  /** A finished task's operation says what the task says, in the record and in its result. */
  predicate Agrees(t: Task, operations: map<nat, Operation>)
  {
    Terminal(t) && t.operationId in operations ==>
      OperationShows(operations[t.operationId], OperationStatusFromTask(t.view.status).value)
  }

  predicate TaskOk(t: Task, operations: map<nat, Operation>)
  {
    t.operationId in operations && (t.noticeEmitted ==> Terminal(t)) && Agrees(t, operations)
  }

  /** One task per operation, and one unfinished task per conflict key. */
  predicate TasksApart(tasks: map<nat, Task>)
  {
    forall i, j :: i in tasks && j in tasks && i != j ==>
      && tasks[i].operationId != tasks[j].operationId
      && (tasks[i].conflictKey == tasks[j].conflictKey ==> Terminal(tasks[i]) || Terminal(tasks[j]))
  }

  predicate TasksOk(s: State)
  {
    && (forall i :: i in s.tasks ==> s.tasks[i].id == i && TaskOk(s.tasks[i], s.operations))
    && TasksApart(s.tasks)
  }

  predicate IsMarked(tid: nat, marks: seq<Mark>) { exists k :: 0 <= k < |marks| && marks[k].tid == tid }

  /** The tasks flagged as announced are those that were marked, each once. */
  predicate MarksOk(s: State)
  {
    && (forall t :: t in s.tasks && s.tasks[t].noticeEmitted ==> IsMarked(t, s.marks))
    && (forall k :: 0 <= k < |s.marks| ==> s.marks[k].tid in s.tasks && s.tasks[s.marks[k].tid].noticeEmitted)
    && (forall j, k :: 0 <= j < k < |s.marks| ==> s.marks[j].tid != s.marks[k].tid)
  }

  predicate Inv(s: State)
  {
    ApprovalsOk(s) && OperationsOk(s) && WritesOk(s) && TasksOk(s) && ResumesOk(s) && MarksOk(s)
  }

  // ---------------------------------------------------------------- what every step keeps

  /** The two-state side of the protocol: decided approvals stay as they were decided, operations keep
      their identity and never lose a result, finished tasks stay finished in every visible field, a
      notice flag is never taken back, and no request and no resumption is forgotten. */
  predicate Evolves(s: State, s': State)
  {
    && s.now <= s'.now && s.writes <= s'.writes && s.tries <= s'.tries && s.resumes <= s'.resumes
    && s.marks <= s'.marks
    && ApprovalsEvolve(s.approvals, s'.approvals)
    && OperationsEvolve(s.operations, s'.operations)
    && TasksEvolve(s.tasks, s'.tasks)
  }

  predicate ApprovalsEvolve(m: map<nat, Approval>, m': map<nat, Approval>)
  {
    forall i :: i in m ==>
      && i in m'
      && m'[i].id == m[i].id && m'[i].calls == m[i].calls
      && m'[i].adminOnly == m[i].adminOnly && m'[i].expiresAt == m[i].expiresAt
      && (!m[i].status.Pending? ==> SameDecision(m'[i], m[i]))
  }

  predicate OperationsEvolve(m: map<nat, Operation>, m': map<nat, Operation>)
  {
    forall i :: i in m ==>
      && i in m' && SameOperation(m'[i], m[i])
      && (m[i].result.Some? ==> m'[i].result.Some?)
  }

  predicate TasksEvolve(m: map<nat, Task>, m': map<nat, Task>)
  {
    forall i :: i in m ==>
      && i in m' && SameTask(m'[i], m[i])
      && (Terminal(m[i]) ==> m'[i].view == m[i].view)
      && (m[i].noticeEmitted ==> m'[i].noticeEmitted)
  }

  lemma StepEvolves(p: Pid, s: State, step: Step)
    requires Inv(s) && Enabled(p, s, step)
    ensures Evolves(s, Apply(p, s, step))
  {
    hide ApprovalsEvolve, OperationsEvolve, TasksEvolve, OperationsOk, WritesOk, TasksOk, ResumesOk, MarksOk, StandsFor,
         SyncOperation, Candidate, NoConflict, GroupTerminal, Unprotected, FreshPending, NoPending;
    ApprovalsEvolveStep(p, s, step);
    OperationsEvolveStep(p, s, step);
    TasksEvolveStep(p, s, step);
  }

  lemma ApprovalsEvolveStep(p: Pid, s: State, step: Step)
    requires ApprovalsOk(s) && Enabled(p, s, step)
    ensures ApprovalsEvolve(s.approvals, Apply(p, s, step).approvals)
  {
  }

  lemma OperationsEvolveStep(p: Pid, s: State, step: Step)
    requires Enabled(p, s, step)
    ensures OperationsEvolve(s.operations, Apply(p, s, step).operations)
  {
  }

  lemma TasksEvolveStep(p: Pid, s: State, step: Step)
    requires Enabled(p, s, step)
    ensures TasksEvolve(s.tasks, Apply(p, s, step).tasks)
  {
  }

  lemma EvolvesTransitive(a: State, b: State, c: State)
    requires Evolves(a, b) && Evolves(b, c)
    ensures Evolves(a, c) && TasksEvolve(a.tasks, c.tasks)
  {
  }

  lemma EvolvesReflexive(s: State)
    ensures Evolves(s, s) && TasksEvolve(s.tasks, s.tasks)
  {
  }

  lemma ConsentKept(o: Operation, o': Operation, s: State, s': State)
    requires Consented(o, s) && SameOperation(o', o) && ApprovalsEvolve(s.approvals, s'.approvals)
    ensures Consented(o', s')
  {
    var a, a' := s.approvals[o.approvalId.value], s'.approvals[o.approvalId.value];
    var call :| call in a.calls && StandsFor(o, a, call);
    assert call in a'.calls && StandsFor(o', a', call);
  }

  lemma ApprovalsUntouched(s: State, s': State)
    requires ApprovalsOk(s) && s'.approvals == s.approvals && s'.checks == s.checks && s.now <= s'.now
    requires s'.lock == s.lock || (s'.lock.Some? ==> s'.lock.value.since <= s'.now)
    ensures ApprovalsOk(s')
  {
  }

  lemma ApprovalPut(s: State, s': State, a: Approval)
    requires ApprovalsOk(s) && s'.approvals == s.approvals[a.id := a] && s'.now == s.now && s'.lock == s.lock
    requires forall i :: i in s.checks && i != a.id ==> i in s'.checks && s'.checks[i] == s.checks[i]
    requires ApprovalOk(a, s') && (a.status.Pending? ==> NoPending(s))
    ensures ApprovalsOk(s')
  {
    forall i | i in s'.approvals ensures s'.approvals[i].id == i && ApprovalOk(s'.approvals[i], s') {
      if i != a.id {
        assert ApprovalOk(s.approvals[i], s);
      }
    }
  }

  lemma ApprovalsStep(p: Pid, s: State, step: Step)
    requires ApprovalsOk(s) && Enabled(p, s, step)
    ensures ApprovalsOk(Apply(p, s, step))
  {
    hide SyncOperation, Candidate, StandsFor, NoConflict, GroupTerminal, Unprotected, NoTaskOf, NoTerminalTaskOf,
         Terminal, NoPending, ApprovalsOk;
    var s' := Apply(p, s, step);
    match step
    case ApprovalCreated(a) => ApprovalPut(s, s', a);
    case ApprovalDecided(aid, d, user, checkedAt) =>
      ApprovalAt(s, aid);
      ApprovalPut(s, s', Decided(s.approvals[aid], d, user, s.now));
    case ApprovalExpired(aid) =>
      ApprovalAt(s, aid);
      ApprovalPut(s, s', MarkedExpired(s.approvals[aid], s.now));
    case ApprovalRewritten(a) =>
      ApprovalAt(s, a.id);
      ApprovalPut(s, s', a);
    case _ => ApprovalsUntouched(s, s');
  }

  lemma ApprovalAt(s: State, aid: nat)
    requires ApprovalsOk(s) && aid in s.approvals
    ensures s.approvals[aid].id == aid && ApprovalOk(s.approvals[aid], s)
  {
  }

  lemma ToolCallIdsStep(p: Pid, s: State, step: Step)
    requires ToolCallIdsDistinct(s.operations) && Enabled(p, s, step)
    ensures ToolCallIdsDistinct(Apply(p, s, step).operations)
  {
    OperationsEvolveStep(p, s, step);
    var m, m' := s.operations, Apply(p, s, step).operations;
    if step.OperationStarted? {
    } else {
      forall i, j | i in m' && j in m' && i != j && m'[i].toolCallId.Some?
        ensures m'[i].toolCallId != m'[j].toolCallId
      {
        assert m'.Keys == m.Keys;
        assert SameOperation(m'[i], m[i]) && SameOperation(m'[j], m[j]);
      }
    }
  }

  lemma OperationsStep(p: Pid, s: State, step: Step)
    requires ApprovalsOk(s) && OperationsOk(s) && Enabled(p, s, step)
    ensures OperationsOk(Apply(p, s, step))
  {
    var s' := Apply(p, s, step);
    ApprovalsEvolveStep(p, s, step);
    OperationsEvolveStep(p, s, step);
    ToolCallIdsStep(p, s, step);
    forall i | i in s'.operations
      ensures s'.operations[i].id == i && Consented(s'.operations[i], s')
    {
      if i in s.operations {
        ConsentKept(s.operations[i], s'.operations[i], s, s');
      }
    }
  }

  lemma RequestsKept(requests: seq<Write>, s: State, s': State)
    requires RequestsOk(requests, s)
    requires ApprovalsEvolve(s.approvals, s'.approvals) && OperationsEvolve(s.operations, s'.operations)
    ensures RequestsOk(requests, s')
  {
    forall i | 0 <= i < |requests| ensures WriteOk(requests[i], s') {
      assert WriteOk(requests[i], s);
    }
  }

  lemma OneMoreRequest(requests: seq<Write>, w: Write, s: State)
    requires RequestsOk(requests, s) && WriteOk(w, s) && forall v :: v in requests ==> v.operationId != w.operationId
    ensures RequestsOk(requests + [w], s)
  {
  }

  lemma WritesStep(p: Pid, s: State, step: Step)
    requires ApprovalsOk(s) && WritesOk(s) && Enabled(p, s, step)
    ensures WritesOk(Apply(p, s, step))
  {
    var s' := Apply(p, s, step);
    ApprovalsEvolveStep(p, s, step);
    OperationsEvolveStep(p, s, step);
    RequestsKept(s.tries, s, s');
    RequestsKept(s.writes, s, s');
    RequestSent(p, s, step);
  }

  lemma RequestSent(p: Pid, s: State, step: Step)
    requires WritesOk(s) && Enabled(p, s, step)
    requires RequestsOk(s.tries, Apply(p, s, step)) && RequestsOk(s.writes, Apply(p, s, step))
    ensures WritesOk(Apply(p, s, step))
  {
    var s' := Apply(p, s, step);
    match step
    case WriteTried(oid, call) => OneMoreRequest(s.tries, Write(oid, s.operations[oid].toolCallId, call, p), s');
    case WriteIssued(oid, call) =>
      var w := Write(oid, s.operations[oid].toolCallId, call, p);
      var i :| 0 <= i < |s.tries| && s.tries[i] == w;
      assert WriteOk(s.tries[i], s');
      OneMoreRequest(s.writes, w, s');
    case _ =>
  }

  lemma ResumesStep(p: Pid, s: State, step: Step)
    requires ApprovalsOk(s) && ResumesOk(s) && Enabled(p, s, step)
    ensures ResumesOk(Apply(p, s, step))
  {
    ApprovalsEvolveStep(p, s, step);
  }

  /** Only marking touches a flag. */
  predicate SameFlags(s: State, s': State)
  {
    && s'.marks == s.marks
    && (forall t :: t in s.tasks ==> t in s'.tasks && s'.tasks[t].noticeEmitted == s.tasks[t].noticeEmitted)
    && (forall t :: t in s'.tasks && t !in s.tasks ==> !s'.tasks[t].noticeEmitted)
  }

  lemma FlagsStep(p: Pid, s: State, step: Step)
    requires Enabled(p, s, step) && !step.NoticeMarked?
    ensures SameFlags(s, Apply(p, s, step))
  {
    hide SyncOperation, Candidate, StandsFor, NoConflict, GroupTerminal, Unprotected, NoTaskOf, NoTerminalTaskOf;
    if step.TaskRefreshed? {
      RefreshedView(s.tasks[step.tid], step.answer);
    }
  }

  lemma MarksSame(s: State, s': State)
    requires MarksOk(s) && SameFlags(s, s')
    ensures MarksOk(s')
  {
  }

  lemma MarkAdded(p: Pid, s: State, tid: nat)
    requires MarksOk(s) && Enabled(p, s, NoticeMarked(tid))
    ensures MarksOk(Apply(p, s, NoticeMarked(tid)))
  {
    hide GroupTerminal;
    var s' := Apply(p, s, NoticeMarked(tid));
    forall t | t in s'.tasks && s'.tasks[t].noticeEmitted ensures IsMarked(t, s'.marks) {
      if t == tid {
        assert s'.marks[|s.marks|].tid == tid;
      } else {
        var k :| 0 <= k < |s.marks| && s.marks[k].tid == t;
        assert s'.marks[k].tid == t;
      }
    }
  }

  lemma MarksStep(p: Pid, s: State, step: Step)
    requires MarksOk(s) && Enabled(p, s, step)
    ensures MarksOk(Apply(p, s, step))
  {
    hide *;
    if step.NoticeMarked? {
      MarkAdded(p, s, step.tid);
    } else {
      FlagsStep(p, s, step);
      MarksSame(s, Apply(p, s, step));
    }
  }

  lemma TasksApartStep(p: Pid, s: State, step: Step)
    requires TasksOk(s) && Enabled(p, s, step)
    ensures TasksApart(Apply(p, s, step).tasks)
  {
    TasksEvolveStep(p, s, step);
    var m, m' := s.tasks, Apply(p, s, step).tasks;
    if step.TaskRecorded? {
    } else {
      assert m'.Keys == m.Keys;
    }
  }

  lemma TasksStep(p: Pid, s: State, step: Step)
    requires TasksOk(s) && Enabled(p, s, step)
    ensures TasksOk(Apply(p, s, step))
  {
    TasksApartStep(p, s, step);
    match step
    case OperationStarted(o, call) =>
    case TaskRecorded(t) =>
    case OperationCompleted(oid, result) =>
    case TaskRefreshed(tid, answer) => RefreshKeepsTasks(p, s, tid, answer);
    case NoticeMarked(tid) =>
    case _ =>
  }

  lemma RefreshKeepsTasks(p: Pid, s: State, tid: nat, answer: Answer)
    requires TasksOk(s) && tid in s.tasks && !Terminal(s.tasks[tid])
    ensures TasksOk(Apply(p, s, TaskRefreshed(tid, answer)))
  {
    TasksApartStep(p, s, TaskRefreshed(tid, answer));
    var s' := Apply(p, s, TaskRefreshed(tid, answer));
    forall i | i in s'.tasks
      ensures s'.tasks[i].id == i && TaskOk(s'.tasks[i], s'.operations)
    {
      if i != tid {
        assert s.tasks[i].operationId != s.tasks[tid].operationId;
      }
    }
  }

  lemma StepKeepsInv(p: Pid, s: State, step: Step)
    requires Inv(s) && Enabled(p, s, step)
    ensures Inv(Apply(p, s, step)) && Evolves(s, Apply(p, s, step))
  {
    StepEvolves(p, s, step);
    ApprovalsStep(p, s, step);
    OperationsStep(p, s, step);
    WritesStep(p, s, step);
    TasksStep(p, s, step);
    ResumesStep(p, s, step);
    MarksStep(p, s, step);
  }

  // ---------------------------------------------------------------- what a process may rely on

  /** No write request after those of s was sent by p. */
  predicate Quiet(p: Pid, s: State, s': State)
  {
    s.writes <= s'.writes && forall i :: |s.writes| <= i < |s'.writes| ==> s'.writes[i].writer != p
  }

  /** p neither set the agent to work nor announced a task after s. */
  predicate Idle(p: Pid, s: State, s': State)
  {
    && s.resumes <= s'.resumes && (forall i :: |s.resumes| <= i < |s'.resumes| ==> s'.resumes[i].holder != p)
    && s.marks <= s'.marks && (forall i :: |s.marks| <= i < |s'.marks| ==> s'.marks[i].holder != p)
  }

  /** No approval is added, and those that wait for an answer are left alone. */
  predicate WaitingKept(m: map<nat, Approval>, m': map<nat, Approval>)
  {
    m'.Keys == m.Keys && forall i :: i in m && m[i].status.Pending? ==> m'[i] == m[i]
  }

  /** While one process holds the run lock, the others only refresh tasks and write back decided approvals. */
  predicate UnderLock(s: State, s': State)
  {
    && s'.lock == s.lock && s'.writes == s.writes && s'.checks == s.checks
    && s'.tries == s.tries && s'.resumes == s.resumes && s'.marks == s.marks && WaitingKept(s.approvals, s'.approvals)
    && s'.operations.Keys == s.operations.Keys && s'.tasks.Keys == s.tasks.Keys
    && (forall i :: i in s.operations && NoTaskOf(i, s.tasks) ==> s'.operations[i] == s.operations[i])
    && (forall i :: i in s.tasks && s'.tasks[i].noticeEmitted ==> s.tasks[i].noticeEmitted)
  }

  /** What p may assume of any number of steps by the other processes. */
  predicate Rely(p: Pid, s: State, s': State)
  {
    && Inv(s') && Evolves(s, s') && Quiet(p, s, s') && Idle(p, s, s') && (Holds(p, s) <==> Holds(p, s'))
    && (Holds(p, s) ==> UnderLock(s, s'))
  }

  lemma RefreshedView(t: Task, answer: Answer)
    ensures SameTask(Candidate(t, answer), t) && Candidate(t, answer).noticeEmitted == t.noticeEmitted
  {
  }

  lemma RefreshApplied(p: Pid, s: State, tid: nat, answer: Answer)
    requires tid in s.tasks && !Terminal(s.tasks[tid])
    ensures var t := Candidate(s.tasks[tid], answer);
            Apply(p, s, TaskRefreshed(tid, answer))
            == if t.view == s.tasks[tid].view then s
               else s.(tasks := s.tasks[tid := t], operations := SyncOperation(s.operations, t))
  {
  }

  lemma RefreshUnderLock(p: Pid, s: State, tid: nat, answer: Answer)
    requires TasksOk(s) && tid in s.tasks && !Terminal(s.tasks[tid])
    ensures UnderLock(s, Apply(p, s, TaskRefreshed(tid, answer)))
  {
    hide Candidate, SyncOperation, Apply, Enabled, Agrees, TasksApart;
    RefreshedView(s.tasks[tid], answer);
    RefreshApplied(p, s, tid, answer);
    forall i | i in s.operations && NoTaskOf(i, s.tasks)
      ensures SyncOperation(s.operations, Candidate(s.tasks[tid], answer))[i] == s.operations[i]
    {
      assert s.tasks[tid].operationId != i;
    }
  }

  lemma OtherStepUnderLock(p: Pid, q: Pid, s: State, step: Step)
    requires TasksOk(s) && p != q && Enabled(q, s, step) && Holds(p, s)
    ensures UnderLock(s, Apply(q, s, step))
  {
    match step
    case TaskRefreshed(tid, answer) => RefreshUnderLock(q, s, tid, answer);
    case Ticked(_) =>
    case ApprovalRewritten(_) =>
    case _ => assert false;
  }

  lemma OtherStepQuiet(p: Pid, q: Pid, s: State, step: Step)
    requires p != q && Enabled(q, s, step)
    ensures Quiet(p, s, Apply(q, s, step)) && Idle(p, s, Apply(q, s, step))
    ensures Holds(p, s) <==> Holds(p, Apply(q, s, step))
  {
  }

  lemma OtherStepIsRely(p: Pid, q: Pid, s: State, step: Step)
    requires Inv(s) && p != q && Enabled(q, s, step)
    ensures Rely(p, s, Apply(q, s, step))
  {
    StepKeepsInv(q, s, step);
    OtherStepQuiet(p, q, s, step);
    if Holds(p, s) {
      OtherStepUnderLock(p, q, s, step);
    }
  }

  lemma RelyReflexive(p: Pid, s: State)
    requires Inv(s)
    ensures Rely(p, s, s)
  {
    hide Inv;
  }

  lemma RelyMeans(p: Pid, s: State, s': State)
    requires Rely(p, s, s')
    ensures Inv(s') && Evolves(s, s') && TasksEvolve(s.tasks, s'.tasks) && (Holds(p, s) <==> Holds(p, s'))
    ensures Quiet(p, s, s') && Idle(p, s, s')
  {
  }

  lemma UnderLockTransitive(a: State, b: State, c: State)
    requires UnderLock(a, b) && UnderLock(b, c) && TasksEvolve(a.tasks, b.tasks)
    ensures UnderLock(a, c)
  {
    forall i | i in a.operations && NoTaskOf(i, a.tasks)
      ensures c.operations[i] == a.operations[i]
    {
      assert forall t :: t in b.tasks ==> SameTask(b.tasks[t], a.tasks[t]);
      assert NoTaskOf(i, b.tasks);
    }
  }

  lemma RelyTransitive(p: Pid, a: State, b: State, c: State)
    requires Rely(p, a, b) && Rely(p, b, c)
    ensures Rely(p, a, c)
  {
    EvolvesTransitive(a, b, c);
    if Holds(p, a) {
      RelyMeans(p, a, b);
      hide Inv, Evolves, UnderLock, TasksEvolve;
      UnderLockTransitive(a, b, c);
    } else {
      hide Inv, Evolves, UnderLock, TasksEvolve;
    }
  }
}
