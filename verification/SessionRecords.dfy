/** The records of one chat session: approvals, operations and tasks, with the small pure
    functions the services share (operations/models.py, sessions/models.py, task_status.py). */
module SessionRecords {
  import opened Wrappers

  type Time = int

  /** A request handler's thread. */
  type Pid = nat

  datatype Identity = Identity(user: string, admin: bool)

  /** One write tool per action; a tool name and its action stand for each other. */
  datatype Action = ResourceUpdate | StorageUpdate | ImageUpgrade | BackupCreate

  predicate IsAsync(a: Action): (r: bool)
    ensures a.ResourceUpdate? || a.StorageUpdate? ==> !r
    ensures a.ImageUpgrade? || a.BackupCreate? ==> r
  {
    a.ImageUpgrade? || a.BackupCreate?
  }

  datatype Target = Target(kind: string, id: string, qualifiers: map<string, string>)

  datatype Json = Null | Text(text: string)

  /** Tool arguments: the target they name, and everything else. */
  datatype ToolArgs = ToolArgs(target: Target, rest: map<string, Json>)

  function NormalizeArgs(args: ToolArgs): ToolArgs
  {
    args.(rest := map k | k in args.rest && args.rest[k] != Null :: args.rest[k])
  }

  datatype ToolCall = ToolCall(toolCallId: string, action: Action, args: ToolArgs)

  // ---------------------------------------------------------------- approvals

  datatype Decision = Approve | Reject

  datatype ApprovalStatus = Pending | Approved | Rejected | Expired

  function StatusOf(d: Decision): ApprovalStatus { if d == Approve then Approved else Rejected }

  /** The fields that record how resuming the paused agent went. */
  datatype ResumeInfo = ResumeInfo(failed: bool, error: Option<string>, lastAttemptAt: Option<Time>)

  datatype Approval = Approval(
    id: nat, status: ApprovalStatus, calls: seq<ToolCall>, adminOnly: bool,
    expiresAt: Option<Time>, decidedBy: Option<Identity>, decidedAt: Option<Time>, expiredAt: Option<Time>,
    resume: ResumeInfo, creationNotice: bool)

  function ApprovalId(a: Approval): nat { a.id }

  predicate IsExpired(a: Approval, now: Time) { a.expiresAt.Some? && a.expiresAt.value <= now }

  /** The two records differ at most in their resume fields and the creation-notice flag. */
  predicate SameDecision(a: Approval, b: Approval)
  {
    a.(resume := b.resume, creationNotice := b.creationNotice) == b
  }

  /** The id under which a call is protected: that of the first interrupted call with the same tool and,
      null arguments dropped, the same arguments; an empty id protects nothing. */
  function FindInterruptedToolCallId(calls: seq<ToolCall>, action: Action, args: ToolArgs): Option<string>
  {
    if calls == [] then None
    else if calls[0].action == action && NormalizeArgs(calls[0].args) == NormalizeArgs(args) then
      if calls[0].toolCallId == "" then None else Some(calls[0].toolCallId)
    else FindInterruptedToolCallId(calls[1..], action, args)
  }

  /** What an argument is worth: a missing one as much as a null one. */
  function Argument(args: ToolArgs, key: string): Json { if key in args.rest then args.rest[key] else Null }

  /** The recorded call is one of this action with these arguments. */
  ghost predicate Fits(call: ToolCall, action: Action, args: ToolArgs)
  {
    && call.action == action && call.args.target == args.target
    && forall key :: Argument(call.args, key) == Argument(args, key)
  }

  lemma SameNormalized(a: ToolArgs, b: ToolArgs)
    ensures NormalizeArgs(a) == NormalizeArgs(b)
            <==> a.target == b.target && forall key :: Argument(a, key) == Argument(b, key)
  {
    var m, n := NormalizeArgs(a).rest, NormalizeArgs(b).rest;
    forall key
      ensures key in m <==> Argument(a, key) != Null
      ensures key in m ==> m[key] == Argument(a, key)
      ensures key in n <==> Argument(b, key) != Null
      ensures key in n ==> n[key] == Argument(b, key)
    {
    }
    if a.target == b.target && forall key :: Argument(a, key) == Argument(b, key) {
      assert forall key :: (key in m <==> key in n) && (key in m ==> m[key] == n[key]);
      assert m == n;
    }
    if NormalizeArgs(a) == NormalizeArgs(b) {
      forall key ensures Argument(a, key) == Argument(b, key) {
        assert m == n;
      }
    }
  }

  /** The first listed call that fits, if there is one. */
  ghost predicate FirstFit(calls: seq<ToolCall>, action: Action, args: ToolArgs, k: nat)
  {
    k < |calls| && Fits(calls[k], action, args) && forall j :: 0 <= j < k ==> !Fits(calls[j], action, args)
  }

  /** The id is that of the first call that fits; no call or an empty id give none. */
  lemma {:induction false} InterruptedIdExactly(calls: seq<ToolCall>, action: Action, args: ToolArgs)
    ensures forall k: nat :: FirstFit(calls, action, args, k) ==>
                          FindInterruptedToolCallId(calls, action, args)
                          == if calls[k].toolCallId == "" then None else Some(calls[k].toolCallId)
    ensures (forall k :: 0 <= k < |calls| ==> !Fits(calls[k], action, args)) ==>
              FindInterruptedToolCallId(calls, action, args) == None
  {
    if calls == [] {
    } else {
      SameNormalized(calls[0].args, args);
      var rest := calls[1..];
      InterruptedIdExactly(rest, action, args);
      forall k: nat | FirstFit(calls, action, args, k)
        ensures FindInterruptedToolCallId(calls, action, args)
                == if calls[k].toolCallId == "" then None else Some(calls[k].toolCallId)
      {
        if k > 0 {
          assert !Fits(calls[0], action, args);
          assert FirstFit(rest, action, args, k - 1) by {
            assert forall j :: 0 <= j < k - 1 ==> rest[j] == calls[j + 1];
          }
        }
      }
      assert forall j :: 0 <= j < |rest| ==> rest[j] == calls[j + 1];
    }
  }

  /** Calls that do not fit for each other and have ids, all different, are told apart by them. */
  ghost predicate ToldApart(calls: seq<ToolCall>)
  {
    && (forall k :: 0 <= k < |calls| ==> calls[k].toolCallId != "")
    && (forall j, k :: 0 <= j < k < |calls| ==>
          calls[j].toolCallId != calls[k].toolCallId && !Fits(calls[j], calls[k].action, calls[k].args))
  }

  lemma OwnId(calls: seq<ToolCall>, k: nat)
    requires ToldApart(calls) && k < |calls|
    ensures FindInterruptedToolCallId(calls, calls[k].action, calls[k].args) == Some(calls[k].toolCallId)
  {
    InterruptedIdExactly(calls, calls[k].action, calls[k].args);
    assert FirstFit(calls, calls[k].action, calls[k].args, k);
  }

  // ---------------------------------------------------------------- operations

  datatype OperationStatus = Started | Succeeded | Failed | Timeout | Unknown | TaskCreated | Canceled

  datatype TaskRef = TaskRef(taskId: nat, status: TaskStatus)

  datatype OperationResult = OperationResult(status: OperationStatus, targets: seq<Target>, task: Option<TaskRef>)

  datatype Operation = Operation(
    id: nat, approvalId: Option<nat>, toolCallId: Option<string>, action: Action,
    status: OperationStatus, result: Option<OperationResult>)

  function OperationId(o: Operation): nat { o.id }

  /** The two records are versions of one operation: only status and result may differ. */
  predicate SameOperation(a: Operation, b: Operation)
  {
    a.(status := b.status, result := b.result) == b
  }

  // ---------------------------------------------------------------- tasks

  datatype TaskStatus = TaskRunning | TaskSucceeded | TaskFailed | TaskCanceled | TaskUnknown | RefreshFailed

  predicate TerminalStatus(s: TaskStatus) { s.TaskSucceeded? || s.TaskFailed? || s.TaskCanceled? }

  /** `map_dbaas_task_status` on a status already stripped and upper-cased. */
  function MapDbaasTaskStatus(source: Option<string>): TaskStatus
  {
    var s := if source.Some? then source.value else "";
    if s in ["RUNNING", "PENDING", "CREATED", "STARTED"] then TaskRunning
    else if s in ["SUCCESS", "SUCCEEDED", "COMPLETED", "DONE"] then TaskSucceeded
    else if s in ["FAILED", "FAILURE", "ERROR"] then TaskFailed
    else if s in ["CANCELED", "CANCELLED"] then TaskCanceled
    else TaskUnknown
  }

  /** The fields `_task_visible_signature` compares. */
  datatype TaskView = TaskView(
    status: TaskStatus, sourceStatus: Option<string>, message: Option<string>, reason: Option<string>,
    result: Option<string>, lastError: Option<string>)

  datatype ConflictKey = ConflictKey(action: Action, targets: multiset<Target>)

  function BuildConflictKey(action: Action, targets: seq<Target>): ConflictKey
  {
    ConflictKey(action, multiset(targets))
  }

  /** Two keys are the same exactly if they name the same action on the same targets, in any order. */
  lemma SameConflictKey(a: Action, targets: seq<Target>, b: Action, others: seq<Target>)
    ensures BuildConflictKey(a, targets) == BuildConflictKey(b, others)
            <==> a == b && multiset(targets) == multiset(others)
  {
  }

  datatype Task = Task(
    id: nat, operationId: nat, conflictKey: ConflictKey, targets: seq<Target>,
    view: TaskView, noticeEmitted: bool)

  function TaskId(t: Task): nat { t.id }

  predicate Terminal(t: Task) { TerminalStatus(t.view.status) }

  predicate SameTask(a: Task, b: Task)
  {
    a.(view := b.view, noticeEmitted := b.noticeEmitted) == b
  }

  /** `_operation_status_from_task`: the operation status a finished task calls for. */
  function OperationStatusFromTask(s: TaskStatus): (r: Option<OperationStatus>)
    ensures s.TaskSucceeded? ==> r == Some(Succeeded)
    ensures s.TaskFailed? ==> r == Some(Failed)
    ensures s.TaskCanceled? ==> r == Some(Canceled)
    ensures s.TaskRunning? || s.TaskUnknown? || s.RefreshFailed? ==> r == None
  {
    match s
    case TaskSucceeded => Some(Succeeded)
    case TaskFailed => Some(Failed)
    case TaskCanceled => Some(Canceled)
    case _ => None
  }

  /** The group whose tasks are announced together. */
  datatype NoticeGroup = ByApproval(approval: nat) | ByOperation(operation: nat)

  function TaskNoticeGroup(t: Task, operations: map<nat, Operation>): NoticeGroup
  {
    if t.operationId in operations && operations[t.operationId].approvalId.Some?
    then ByApproval(operations[t.operationId].approvalId.value)
    else ByOperation(t.operationId)
  }

  function ApprovalOf(t: Task, operations: map<nat, Operation>): Option<nat>
  {
    if t.operationId in operations then operations[t.operationId].approvalId else None
  }

  /** Tasks are announced together exactly if their operations belong to one approval, or, where there is no
      approval, if they belong to one operation. */
  lemma SameNoticeGroup(t: Task, u: Task, operations: map<nat, Operation>)
    ensures TaskNoticeGroup(t, operations) == TaskNoticeGroup(u, operations)
            <==> ApprovalOf(t, operations) == ApprovalOf(u, operations)
                 && (ApprovalOf(t, operations).None? ==> t.operationId == u.operationId)
  {
  }
}
