/** Tasks: lazy refresh, synchronising the operation a finished task belongs to, and the notice flag
    (operations/task_service.py). */
module TaskService {
  import opened Wrappers
  import opened SessionRecords
  import opened SessionProtocol
  import opened SessionStore

  /** `_sync_terminal_operation_status`: one more record for the task's operation, unless it already shows
      what the task shows. */
  method SyncTerminalOperationStatus(session: Session, task: Task)
    modifies session`operations
    ensures session.S() == old(session.S()).(operations := SyncOperation(old(session.S()).operations, task))
  {
    var status := OperationStatusFromTask(task.view.status);
    if status.None? {
      return;
    }
    var all := session.LoadOperations();
    var found := FindById(all, OperationId, task.operationId, session.S().operations);
    if found.Some? {
      var o := found.value;
      if !OperationShows(o, status.value) {
        session.AppendOperation(o.(status := status.value, result := Some(SyncedResult(o, task, status.value))));
      }
    }
  }

  /** The operation has ended the way the task has. */
  predicate ShowsEnd(o: Operation, end: TaskStatus)
  {
    && o.result.Some? && o.result.value.status == o.status
    && match end {
         case TaskSucceeded => o.status.Succeeded?
         case TaskFailed => o.status.Failed?
         case TaskCanceled => o.status.Canceled?
         case _ => false
       }
  }

  /** Synchronising writes nothing for an unfinished task; after a finished one its operation shows the same
      end, and a result made or changed for it names the targets and the task. */
  lemma SyncedExactly(operations: map<nat, Operation>, t: Task)
    ensures var r := SyncOperation(operations, t);
            && (!Terminal(t) ==> r == operations)
            && (Terminal(t) && t.operationId in operations ==>
                  && ShowsEnd(r[t.operationId], t.view.status)
                  && (!ShowsEnd(operations[t.operationId], t.view.status) ==>
                        Relates(r[t.operationId].result.value, operations[t.operationId].result, t)))
  {
  }

  /** The result keeps what there was of targets and task id, and shows the task's status. */
  predicate Relates(result: OperationResult, before: Option<OperationResult>, t: Task)
  {
    && result.targets == (if before.Some? then before.value.targets else t.targets)
    && result.task.Some? && result.task.value.status == t.view.status
    && result.task.value.taskId == if before.Some? && before.value.task.Some? then before.value.task.value.taskId
                                   else t.id
  }

  /** What one refresh leaves alone. */
  predicate OnlyTaskRefreshed(s: State, s': State, tid: nat)
  {
    && s'.approvals == s.approvals && s'.lock == s.lock && s'.now == s.now && s'.writes == s.writes
    && s'.checks == s.checks && s'.tries == s.tries && s'.resumes == s.resumes && s'.marks == s.marks
    && s'.tasks.Keys == s.tasks.Keys
    && forall i :: i in s.tasks && i != tid ==> s'.tasks[i] == s.tasks[i]
  }

  /** What `refresh_task` returns for a copy of a task, from the server's answer. */
  function Refreshed(copy: Task, force: bool, answer: Answer): (r: Task)
    ensures SameTask(r, copy) && r.noticeEmitted == copy.noticeEmitted
    ensures Terminal(copy) && !force ==> r == copy
  {
    if Terminal(copy) && (!force || answer.NoAnswer?) then copy else Candidate(copy, answer)
  }

  /** What it leaves in the logs, whatever they hold by then: a change is appended, and a finished task's
      operation is synchronised. */
  function RefreshFromCopy(s: State, copy: Task, force: bool, answer: Answer): State
  {
    var r := Refreshed(copy, force, answer);
    if Terminal(copy) && !force then s.(operations := SyncOperation(s.operations, copy))
    else if r.view == copy.view then s
    else s.(tasks := s.tasks[r.id := r], operations := SyncOperation(s.operations, r))
  }

  /** From a copy that is still current a refresh without force is a step of the protocol. */
  lemma RefreshIsStep(p: Pid, s: State, task: Task, answer: Answer)
    requires Inv(s) && task.id in s.tasks && s.tasks[task.id] == task
    ensures var s', r := RefreshFromCopy(s, task, false, answer), Refreshed(task, false, answer);
            && (Terminal(task) ==> s' == s)
            && (!Terminal(task) ==>
                  Enabled(p, s, TaskRefreshed(task.id, answer)) && Apply(p, s, TaskRefreshed(task.id, answer)) == s')
            && OnlyTaskRefreshed(s, s', task.id) && r.id == task.id && r.id in s'.tasks
            && s'.tasks[r.id] == if r.view == task.view then task else r
  {
    hide Candidate, SyncOperation, Inv, Enabled, Apply;
    if Terminal(task) {
      FinishedAlreadySynced(s, task);
    } else {
      RefreshApplies(p, s, task, answer);
    }
  }

  lemma RefreshApplies(p: Pid, s: State, task: Task, answer: Answer)
    requires task.id in s.tasks && s.tasks[task.id] == task && !Terminal(task)
    ensures Enabled(p, s, TaskRefreshed(task.id, answer))
    ensures Apply(p, s, TaskRefreshed(task.id, answer)) == RefreshFromCopy(s, task, false, answer)
  {
    hide Candidate, SyncOperation;
  }

  lemma RefreshNothing(s: State, tid: nat)
    ensures OnlyTaskRefreshed(s, s, tid)
  {
  }

  lemma FinishedAlreadySynced(s: State, task: Task)
    requires Inv(s) && task.id in s.tasks && s.tasks[task.id] == task && Terminal(task)
    ensures SyncOperation(s.operations, task) == s.operations
  {
    assert TaskOk(task, s.operations);
  }

  /** The task's visible fields say what the server has answered. */
  predicate ShowsAnswer(v: TaskView, a: Answer)
    requires a.Answer?
  {
    && (v.status.TaskRunning?
        <==> a.status.Some? && a.status.value in ["RUNNING", "PENDING", "CREATED", "STARTED"])
    && (v.status.TaskSucceeded?
        <==> a.status.Some? && a.status.value in ["SUCCESS", "SUCCEEDED", "COMPLETED", "DONE"])
    && (v.status.TaskFailed? <==> a.status.Some? && a.status.value in ["FAILED", "FAILURE", "ERROR"])
    && (v.status.TaskCanceled? <==> a.status.Some? && a.status.value in ["CANCELED", "CANCELLED"])
    && !v.status.RefreshFailed? && v.sourceStatus == a.status && v.message == a.message && v.reason == a.reason
    && v.result == a.result && v.lastError.None?
  }

  lemma CandidateShows(t: Task, answer: Answer)
    ensures answer.Answer? ==> ShowsAnswer(Candidate(t, answer).view, answer)
    ensures answer.NoAnswer? ==>
              Candidate(t, answer).view == t.view.(status := RefreshFailed, lastError := Some(answer.error))
  {
  }

  /** `refresh_task`, when this is what the server answers. */
  method RefreshTask(session: Session, task: Task, force: bool, answer: Answer) returns (r: Task)
    modifies session`tasks, session`operations
    ensures r == Refreshed(task, force, answer)
    ensures session.S() == RefreshFromCopy(old(session.S()), task, force, answer)
    // in the server's words
    ensures Terminal(task) && (!force || answer.NoAnswer?) ==> r == task
    ensures (!Terminal(task) || force) && answer.Answer? ==> ShowsAnswer(r.view, answer)
    ensures !Terminal(task) && answer.NoAnswer? ==>
              r.view == task.view.(status := RefreshFailed, lastError := Some(answer.error))
    ensures !Terminal(r) ==> session.S().operations == old(session.S()).operations
    ensures Terminal(r) && (force ==> r.view != task.view) && r.operationId in old(session.S()).operations ==>
              ShowsEnd(session.S().operations[r.operationId], r.view.status)
  {
    hide Candidate, SyncOperation, ShowsAnswer, ShowsEnd;
    SyncedExactly(session.S().operations, task);
    CandidateShows(task, answer);
    SameView(task, answer);
    if Terminal(task) && !force {
      SyncTerminalOperationStatus(session, task);
      return task;
    }
    if answer.NoAnswer? && Terminal(task) {
      return task;
    }
    var candidate := Candidate(task, answer);
    if candidate.view == task.view {
      return task;
    }
    SyncedExactly(session.S().operations, candidate);
    session.AppendTask(candidate);
    if Terminal(candidate) {
      SyncTerminalOperationStatus(session, candidate);
    }
    return candidate;
  }

  lemma SameView(task: Task, answer: Answer)
    ensures var c := Candidate(task, answer); c.id == task.id && (c.view == task.view ==> c == task)
  {
  }

  /** A refresh of a task that is current in the log, in one go. */
  method RefreshCurrent(session: Session, p: Pid, task: Task, answer: Answer, ghost origin: State) returns (r: Task)
    requires session.Settled() && Evolves(origin, session.S())
    requires task.id in session.S().tasks && session.S().tasks[task.id] == task
    modifies session
    ensures session.Settled() && Evolves(origin, session.S())
    ensures OnlyTaskRefreshed(old(session.S()), session.S(), task.id) && r == Refreshed(task, false, answer)
    ensures r.id == task.id && r.id in session.S().tasks && session.S().tasks[r.id] == r
  {
    hide *;
    session.SettledMeans();
    ghost var s := session.S();
    r := RefreshTask(session, task, false, answer);
    RefreshIsStep(p, s, task, answer);
    SameView(task, answer);
    RefreshedOrNot(task, answer);
    if Terminal(task) {
      session.SettledMeans();
    } else {
      session.Commit(p, TaskRefreshed(task.id, answer), origin);
    }
  }

  lemma RefreshedOrNot(task: Task, answer: Answer)
    ensures Refreshed(task, false, answer) == task || Refreshed(task, false, answer) == Candidate(task, answer)
  {
  }

  /** The list in hand: refreshed records up to |r|, untouched ones after. */
  predicate RefreshedSoFar(all: seq<Task>, r: seq<Task>, m: map<nat, Task>)
  {
    && |r| <= |all|
    && (forall j :: 0 <= j < |r| ==> r[j].id == all[j].id && r[j].id in m && m[r[j].id] == r[j])
    && (forall j :: |r| <= j < |all| ==> all[j].id in m && m[all[j].id] == all[j])
  }

  lemma RefreshedOneMore(all: seq<Task>, r: seq<Task>, s: State, s': State, t: Task)
    requires RefreshedSoFar(all, r, s.tasks) && |r| < |all| && OnlyTaskRefreshed(s, s', all[|r|].id)
    requires forall i, j :: 0 <= i < j < |all| ==> all[i].id != all[j].id
    requires t.id == all[|r|].id && t.id in s'.tasks && s'.tasks[t.id] == t
    ensures RefreshedSoFar(all, r + [t], s'.tasks)
  {
  }

  /** Every task is what the server's answer makes of it. */
  predicate AllRefreshed(m: map<nat, Task>, answers: nat -> Answer, m': map<nat, Task>)
  {
    m'.Keys == m.Keys && forall i :: i in m ==> m'[i] == Refreshed(m[i], false, answers(i))
  }

  lemma AllAnswered(all: seq<Task>, r: seq<Task>, answers: nat -> Answer, m: map<nat, Task>, m': map<nat, Task>)
    requires Lists(all, m, TaskId) && RefreshedSoFar(all, r, m') && |r| == |all| && m'.Keys == m.Keys
    requires forall j :: 0 <= j < |all| ==> r[j] == Refreshed(all[j], false, answers(all[j].id))
    ensures AllRefreshed(m, answers, m')
  {
    hide Refreshed;
    forall i | i in m ensures m'[i] == Refreshed(m[i], false, answers(i)) {
      assert m[i] in all && TaskId(m[i]) == i;
      var j :| 0 <= j < |all| && all[j] == m[i];
      assert r[j].id == i;
    }
  }

  lemma RefreshedAll(all: seq<Task>, r: seq<Task>, m: map<nat, Task>, m': map<nat, Task>)
    requires Lists(all, m, TaskId) && RefreshedSoFar(all, r, m') && |r| == |all| && m'.Keys == m.Keys
    ensures Lists(r, m', TaskId)
  {
    forall i | i in m' ensures m'[i] in r && m'[i].id == i {
      assert m[i] in all;
      var j :| 0 <= j < |all| && all[j] == m[i];
      assert r[j] == m'[i];
    }
  }

  /** What any number of refreshes leaves alone. */
  predicate OnlyTasksRefreshed(s: State, s': State)
  {
    && s'.approvals == s.approvals && s'.lock == s.lock && s'.now == s.now && s'.writes == s.writes
    && s'.checks == s.checks && s'.tries == s.tries && s'.resumes == s.resumes && s'.marks == s.marks
    && s'.tasks.Keys == s.tasks.Keys
  }

  /** `list_tasks_with_lazy_refresh`: polls every unfinished task and lists the records as they now are. */
  method ListTasksWithLazyRefresh(session: Session, p: Pid, answers: nat -> Answer, ghost origin: State)
    returns (r: seq<Task>)
    requires session.Settled() && Evolves(origin, session.S())
    modifies session
    ensures session.Settled() && Evolves(origin, session.S())
    ensures Lists(r, session.S().tasks, TaskId) && OnlyTasksRefreshed(old(session.S()), session.S())
    ensures AllRefreshed(old(session.S()).tasks, answers, session.S().tasks)
  {
    hide *;
    var all := session.LoadTasks();
    ghost var s := session.S();
    r := [];
    ListedUntouched(all, s.tasks);
    ListedApart(all, s.tasks);
    NothingRefreshed(s);
    for i := 0 to |all|
      invariant session.Settled() && Evolves(origin, session.S()) && OnlyTasksRefreshed(s, session.S())
      invariant |r| == i && RefreshedSoFar(all, r, session.S().tasks)
      invariant forall j :: 0 <= j < i ==> r[j] == Refreshed(all[j], false, answers(all[j].id))
    {
      ghost var before := session.S();
      RefreshNothing(before, all[i].id);
      NextIsCurrent(all, r, before.tasks);
      var t := all[i];
      if !Terminal(t) {
        t := RefreshCurrent(session, p, t, answers(t.id), origin);
      } else {
        FinishedStaysAsItIs(t, answers(t.id));
      }
      RefreshedOneMore(all, r, before, session.S(), t);
      OnlyRefreshedMore(s, before, session.S(), all[i].id);
      r := r + [t];
    }
    SameKeys(s, session.S());
    RefreshedAll(all, r, s.tasks, session.S().tasks);
    AllAnswered(all, r, answers, s.tasks, session.S().tasks);
  }

  lemma FinishedStaysAsItIs(t: Task, answer: Answer)
    requires Terminal(t)
    ensures Refreshed(t, false, answer) == t
  {
  }

  lemma NothingRefreshed(s: State)
    ensures OnlyTasksRefreshed(s, s)
  {
  }

  lemma OnlyRefreshedMore(s: State, t: State, u: State, tid: nat)
    requires OnlyTasksRefreshed(s, t) && OnlyTaskRefreshed(t, u, tid)
    ensures OnlyTasksRefreshed(s, u)
  {
  }

  lemma SameKeys(s: State, s': State)
    requires OnlyTasksRefreshed(s, s')
    ensures s'.tasks.Keys == s.tasks.Keys
  {
  }

  lemma ListedApart(all: seq<Task>, m: map<nat, Task>)
    requires Lists(all, m, TaskId)
    ensures forall i, j :: 0 <= i < j < |all| ==> all[i].id != all[j].id
  {
    assert forall i :: 0 <= i < |all| ==> TaskId(all[i]) == all[i].id;
  }

  lemma ListedUntouched(all: seq<Task>, m: map<nat, Task>)
    requires Lists(all, m, TaskId)
    ensures RefreshedSoFar(all, [], m)
  {
    assert forall j :: 0 <= j < |all| ==> all[j] in all && TaskId(all[j]) == all[j].id;
  }

  lemma NextIsCurrent(all: seq<Task>, r: seq<Task>, m: map<nat, Task>)
    requires RefreshedSoFar(all, r, m) && |r| < |all|
    ensures all[|r|].id in m && m[all[|r|].id] == all[|r|]
  {
  }

  // ---------------------------------------------------------------- notices

  function IdsOf(tasks: seq<Task>): set<nat> { set j | 0 <= j < |tasks| :: tasks[j].id }

  /** The task log after the tasks with these ids have been marked as announced. */
  function WithNotices(m: map<nat, Task>, ids: set<nat>): (r: map<nat, Task>)
    ensures r.Keys == m.Keys
  {
    map i | i in m :: if i in ids then m[i].(noticeEmitted := true) else m[i]
  }

  /** The task is a current record and its whole group has finished. */
  predicate Announceable(t: Task, s: State)
  {
    t.id in s.tasks && s.tasks[t.id] == t && GroupTerminal(t, s)
  }

  /** What p has marked as announced since are tasks with these ids. */
  predicate Marking(p: Pid, ids: set<nat>, marks: seq<Mark>, marks': seq<Mark>)
  {
    marks <= marks' && forall k :: |marks| <= k < |marks'| ==> marks'[k].holder == p && marks'[k].tid in ids
  }

  /** The state after the tasks with these ids have been marked. */
  predicate MarkedBy(p: Pid, ids: set<nat>, s: State, s': State)
  {
    s' == s.(tasks := WithNotices(s.tasks, ids), marks := s'.marks) && Marking(p, ids, s.marks, s'.marks)
  }

  lemma OneMoreNotice(m: map<nat, Task>, ids: set<nat>, tid: nat)
    requires tid in m
    ensures m[tid].noticeEmitted ==> WithNotices(m, ids + {tid}) == WithNotices(m, ids)
    ensures WithNotices(m, ids + {tid}) == WithNotices(m, ids)[tid := m[tid].(noticeEmitted := true)]
  {
    if m[tid].noticeEmitted {
      assert m[tid].(noticeEmitted := true) == m[tid];
    }
  }

  lemma StillFinished(t: Task, ids: set<nat>, s: State, s': State)
    requires Announceable(t, s) && s'.tasks == WithNotices(s.tasks, ids) && s'.operations == s.operations
    ensures t.id in s'.tasks && (t.id !in ids ==> s'.tasks[t.id] == t) && GroupTerminal(t, s')
  {
    forall u | u in s'.tasks && TaskNoticeGroup(s'.tasks[u], s'.operations) == TaskNoticeGroup(t, s'.operations)
      ensures Terminal(s'.tasks[u])
    {
      assert TaskNoticeGroup(s.tasks[u], s.operations) == TaskNoticeGroup(t, s.operations);
    }
  }

  lemma MarkNext(p: Pid, s: State, s': State, ids: set<nat>, t: Task)
    requires Announceable(t, s) && Holds(p, s) && MarkedBy(p, ids, s, s')
    ensures t.noticeEmitted ==> MarkedBy(p, ids + {t.id}, s, s')
    ensures !t.noticeEmitted && t.id !in ids ==>
              && Enabled(p, s', NoticeMarked(t.id))
              && var s'' := s'.(tasks := s'.tasks[t.id := t.(noticeEmitted := true)],
                                marks := s'.marks + [Mark(p, t.id)]);
                 Apply(p, s', NoticeMarked(t.id)) == s'' && MarkedBy(p, ids + {t.id}, s, s'')
  {
    hide WithNotices, GroupTerminal;
    OneMoreNotice(s.tasks, ids, t.id);
    StillFinished(t, ids, s, s');
  }

  /** One turn of its loop; ids are those of the tasks marked so far, in s. */
  method MarkOne(session: Session, p: Pid, t: Task, ghost s: State, ghost ids: set<nat>, ghost origin: State)
    returns (marked: Task)
    requires session.Settled() && Evolves(origin, session.S()) && Holds(p, s) && Announceable(t, s)
    requires MarkedBy(p, ids, s, session.S()) && t.id !in ids
    modifies session
    ensures session.Settled() && Evolves(origin, session.S()) && marked == t.(noticeEmitted := true)
    ensures MarkedBy(p, ids + {t.id}, s, session.S())
  {
    hide *;
    session.SettledMeans();
    MarkNext(p, s, session.S(), ids, t);
    if t.noticeEmitted {
      return t;
    }
    marked := t.(noticeEmitted := true);
    session.AppendTask(marked);
    session.NoteMark(Mark(p, t.id));
    session.Commit(p, NoticeMarked(t.id), origin);
  }

  /** `mark_terminal_notice_emitted`. */
  method MarkTerminalNoticeEmitted(session: Session, p: Pid, tasks: seq<Task>, ghost origin: State)
    returns (marked: seq<Task>)
    requires session.Settled() && Evolves(origin, session.S()) && Holds(p, session.S())
    requires forall j :: 0 <= j < |tasks| ==> Announceable(tasks[j], session.S())
    requires forall i, j :: 0 <= i < j < |tasks| ==> tasks[i].id != tasks[j].id
    modifies session
    ensures session.Settled() && Evolves(origin, session.S())
    ensures MarkedBy(p, IdsOf(tasks), old(session.S()), session.S())
    ensures |marked| == |tasks| && forall j :: 0 <= j < |tasks| ==> marked[j] == tasks[j].(noticeEmitted := true)
  {
    hide *;
    ghost var s := session.S();
    marked := [];
    NoneMarked(p, s);
    assert tasks[..0] == [];
    for i := 0 to |tasks|
      invariant session.Settled() && Evolves(origin, session.S())
      invariant MarkedBy(p, IdsOf(tasks[..i]), s, session.S())
      invariant |marked| == i && forall j :: 0 <= j < i ==> marked[j] == tasks[j].(noticeEmitted := true)
    {
      OneMoreId(tasks, i);
      var t := MarkOne(session, p, tasks[i], s, IdsOf(tasks[..i]), origin);
      marked := marked + [t];
    }
    assert tasks[..|tasks|] == tasks;
  }

  lemma OneMoreId(tasks: seq<Task>, i: nat)
    requires i < |tasks| && forall k, j :: 0 <= k < j < |tasks| ==> tasks[k].id != tasks[j].id
    ensures IdsOf(tasks[..i + 1]) == IdsOf(tasks[..i]) + {tasks[i].id} && tasks[i].id !in IdsOf(tasks[..i])
  {
    assert forall k :: 0 <= k < i ==> tasks[..i + 1][k] == tasks[..i][k];
    assert tasks[..i + 1][i] == tasks[i];
    forall id | id in IdsOf(tasks[..i]) ensures id in IdsOf(tasks[..i + 1]) {
      var k :| 0 <= k < i && tasks[..i][k].id == id;
      assert tasks[..i + 1][k].id == id;
    }
  }

  lemma NoneMarked(p: Pid, s: State)
    ensures MarkedBy(p, IdsOf([]), s, s)
  {
    assert WithNotices(s.tasks, IdsOf([])) == s.tasks;
  }
}
