/** The bodies of the write tools (dbaas/write_tools.py) and the part of the task service they use. */
module WriteTools {
  import opened Wrappers
  import opened AppendLog
  import opened SessionRecords
  import opened SessionProtocol
  import opened SessionStore
  import opened OperationService

  /** What a client sees of one write request: an answer, a timeout, an error, or an exception that no
      tool catches (the process may also die here). */
  datatype Reply = Done(taskId: Option<nat>) | TimedOut | Refused | Lost

  datatype ToolOutcome = Returned(result: OperationResult) | Raised

  /** What becomes of one request: whether the server receives it, and if so answers in time and names a task;
      otherwise whether the client gives up waiting or is refused. */
  datatype Wire = Wire(received: bool, answered: bool, named: bool, late: bool, refused: bool)

  predicate Answered(w: Wire) { w.received && w.answered }

  /** The client raises what no tool catches. */
  predicate Uncaught(w: Wire) { !Answered(w) && !w.late && !w.refused }

  /** Where the process dies while a tool runs, if it does. */
  datatype Death = Lives | AtStart | BeforeTask | AfterTask

  /** What the surroundings do to one run of a tool. */
  datatype Luck = Luck(readFails: bool, wire: Wire, death: Death)

  /** The search of `ensure_no_conflicting_task`. */
  method FirstUnfinished(all: seq<Task>, key: ConflictKey) returns (r: Option<Task>)
    ensures r.None? ==> forall t :: t in all && t.conflictKey == key ==> Terminal(t)
    ensures r.Some? ==> r.value in all && r.value.conflictKey == key && !Terminal(r.value)
  {
    for i := 0 to |all|
      invariant forall j :: 0 <= j < i ==> all[j].conflictKey == key ==> Terminal(all[j])
    {
      if all[i].conflictKey == key && !Terminal(all[i]) {
        return Some(all[i]);
      }
    }
    return None;
  }

  lemma ListedConflicts(all: seq<Task>, key: ConflictKey, m: map<nat, Task>)
    requires Lists(all, m, TaskId)
    ensures NoConflict(key, m) <==> forall t :: t in all && t.conflictKey == key ==> Terminal(t)
  {
    assert forall i :: i in m ==> m[i] in all;
    assert forall t :: t in all ==> m[TaskId(t)] == t;
  }

  /** `ensure_no_conflicting_task`: the unfinished task in the way, if there is one. */
  method FindConflictingTask(session: Session, key: ConflictKey) returns (r: Option<Task>)
    ensures r.None? <==> NoConflict(key, session.S().tasks)
    ensures r.Some? ==> r.value.id in session.S().tasks && session.S().tasks[r.value.id] == r.value
                        && r.value.conflictKey == key && !Terminal(r.value)
  {
    var all := session.LoadTasks();
    ListedConflicts(all, key, session.S().tasks);
    r := FirstUnfinished(all, key);
    assert r.Some? ==> session.S().tasks[TaskId(r.value)] == r.value;
  }

  /** The state in which a tool body works between its start and its completion. */
  predicate Working(p: Pid, s: State, o: Operation, a: Approval, call: ToolCall)
  {
    && MayRun(p, s, a, call) && o.id in s.operations && s.operations[o.id] == o
    && StandsFor(o, a, call) && NoTaskOf(o.id, s.tasks)
  }

  lemma WorkingKept(p: Pid, s: State, s': State, o: Operation, a: Approval, call: ToolCall)
    requires Working(p, s, o, a, call) && Rely(p, s, s')
    ensures Working(p, s', o, a, call) && s'.lock == s.lock && s'.writes == s.writes && s'.tasks.Keys == s.tasks.Keys
    ensures s'.tries == s.tries && s'.resumes == s.resumes
    ensures WaitingKept(s.approvals, s'.approvals)
    ensures forall key :: NoConflict(key, s.tasks) ==> NoConflict(key, s'.tasks)
  {
    hide Inv;
    assert forall t :: t in s'.tasks ==> SameTask(s'.tasks[t], s.tasks[t]);
  }

  function RequestFor(p: Pid, o: Operation, call: ToolCall): Write { Write(o.id, o.toolCallId, call, p) }

  /** What a tool body leaves behind: the lock is kept, and at most one request, for this very call, was sent;
      approvals that wait for an answer are not touched, and the agent is not set to work. */
  predicate BodyEffect(p: Pid, s: State, s': State, call: ToolCall)
  {
    && s'.lock == s.lock && s.writes <= s'.writes && |s'.writes| <= |s.writes| + 1
    && s.tries <= s'.tries && |s'.tries| <= |s.tries| + 1 && s'.resumes == s.resumes
    && WaitingKept(s.approvals, s'.approvals)
    && (forall i :: |s.writes| <= i < |s'.writes| ==> s'.writes[i].call == call && s'.writes[i].writer == p)
    && (forall i :: |s.tries| <= i < |s'.tries| ==> s'.tries[i].call == call && s'.tries[i].writer == p)
  }

  predicate Untried(oid: nat, s: State)
  {
    && (forall w :: w in s.tries ==> w.operationId != oid)
    && (forall w :: w in s.writes ==> w.operationId != oid)
  }

  lemma Sendable(p: Pid, s: State, o: Operation, a: Approval, call: ToolCall)
    requires Working(p, s, o, a, call) && Untried(o.id, s)
    ensures var w := RequestFor(p, o, call);
            var s1 := s.(tries := s.tries + [w]);
            var s2 := s1.(writes := s.writes + [w]);
            && Enabled(p, s, WriteTried(o.id, call)) && Apply(p, s, WriteTried(o.id, call)) == s1
            && Enabled(p, s1, WriteIssued(o.id, call)) && Apply(p, s1, WriteIssued(o.id, call)) == s2
            && Working(p, s1, o, a, call) && Working(p, s2, o, a, call)
            && BodyEffect(p, s, s1, call) && BodyEffect(p, s, s2, call)
  {
  }

  method FreshTaskId(session: Session) returns (id: nat)
    ensures id !in session.S().tasks
  {
    id := FreshId(Latest(session.tasks, TaskId).Keys);
  }

  lemma WireMeans(w: Wire)
    ensures Answered(w) <==> w.received && w.answered
    ensures Uncaught(w) <==> !Answered(w) && !w.late && !w.refused
  {
  }

  /** Sends one write request. Whatever comes back, the server may or may not have received it; a proper
      answer means it has. New task ids are fresh. */
  method SendWrite(session: Session, p: Pid, o: Operation, a: Approval, call: ToolCall, wire: Wire, ghost origin: State)
    returns (reply: Reply)
    requires session.Settled() && Evolves(origin, session.S()) && Working(p, session.S(), o, a, call)
    requires Untried(o.id, session.S())
    modifies session
    ensures old(session.approvals) <= session.approvals
    ensures session.Settled() && Evolves(origin, session.S()) && Working(p, session.S(), o, a, call)
    ensures BodyEffect(p, old(session.S()), session.S(), call)
    ensures var w := RequestFor(p, o, call);
            session.S() == old(session.S()).(tries := old(session.S()).tries + [w],
                                             writes := old(session.S()).writes + if wire.received then [w] else [])
    ensures reply.Done? <==> Answered(wire)
    ensures reply.TimedOut? <==> !Answered(wire) && wire.late
    ensures reply.Lost? <==> Uncaught(wire)
    ensures reply.Done? ==> (reply.taskId.Some? <==> wire.named)
    ensures reply.Done? && reply.taskId.Some? ==> reply.taskId.value !in session.S().tasks
  {
    hide *;
    session.SettledMeans();
    Sendable(p, session.S(), o, a, call);
    WireMeans(wire);
    var w := RequestFor(p, o, call);
    session.NoteTry(w);
    session.Commit(p, WriteTried(o.id, call), origin);
    assert session.S().writes + [] == session.S().writes;
    if wire.received {
      session.SettledMeans();
      session.Receive(w);
      session.Commit(p, WriteIssued(o.id, call), origin);
      if wire.answered {
        if wire.named {
          var id := FreshTaskId(session);
          return Done(Some(id));
        }
        return Done(None);
      }
    }
    reply := if wire.late then TimedOut else if wire.refused then Refused else Lost;
  }

  lemma TaskRecordable(p: Pid, s: State, o: Operation, a: Approval, call: ToolCall, task: Task)
    requires Working(p, s, o, a, call) && task.operationId == o.id && task.id !in s.tasks
    requires !Terminal(task) && !task.noticeEmitted && NoConflict(task.conflictKey, s.tasks)
    ensures Enabled(p, s, TaskRecorded(task))
            && Apply(p, s, TaskRecorded(task)) == s.(tasks := s.tasks[task.id := task])
    ensures NoTerminalTaskOf(o.id, s.tasks[task.id := task])
    ensures Holds(p, s) && o.id in s.operations && s.operations[o.id] == o
  {
  }

  /** An unfinished task for the call, under its conflict key, that has not been announced. */
  predicate TaskFor(oid: nat, call: ToolCall, tasks: map<nat, Task>)
  {
    exists t ::
      && t in tasks && tasks[t].operationId == oid && !Terminal(tasks[t]) && !tasks[t].noticeEmitted
      && tasks[t].conflictKey == BuildConflictKey(call.action, [call.args.target])
      && tasks[t].targets == [call.args.target]
  }

  lemma HasTask(oid: nat, call: ToolCall, tasks: map<nat, Task>, tid: nat)
    requires tid in tasks && tasks[tid].operationId == oid && tasks[tid].view.status.TaskRunning?
    requires !tasks[tid].noticeEmitted && tasks[tid].conflictKey == BuildConflictKey(call.action, [call.args.target])
    requires tasks[tid].targets == [call.args.target]
    ensures !NoTaskOf(oid, tasks) && TaskFor(oid, call, tasks)
  {
  }

  lemma NothingSent(p: Pid, s: State, call: ToolCall)
    ensures BodyEffect(p, s, s, call)
  {
  }

  lemma NothingMoreSent(p: Pid, s: State, t: State, u: State, call: ToolCall)
    requires BodyEffect(p, s, t, call) && u.lock == t.lock && u.writes == t.writes && u.tries == t.tries
    requires WaitingKept(t.approvals, u.approvals) && u.resumes == t.resumes
    ensures BodyEffect(p, s, u, call)
  {
  }

  lemma NothingSentBefore(p: Pid, s: State, t: State, u: State, call: ToolCall)
    requires BodyEffect(p, t, u, call) && t.lock == s.lock && t.writes == s.writes && t.tries == s.tries
    requires WaitingKept(s.approvals, t.approvals) && t.resumes == s.resumes
    ensures BodyEffect(p, s, u, call)
  {
  }

  /** `create_task_record`. */
  method CreateTaskRecord(session: Session, p: Pid, o: Operation, a: Approval, call: ToolCall, taskId: nat,
                          ghost origin: State)
    returns (task: Task)
    requires session.Settled() && Evolves(origin, session.S()) && Working(p, session.S(), o, a, call)
    requires taskId !in session.S().tasks
    requires NoConflict(BuildConflictKey(call.action, [call.args.target]), session.S().tasks)
    modifies session
    ensures old(session.approvals) <= session.approvals
    ensures session.Settled() && Evolves(origin, session.S())
    ensures session.S() == old(session.S()).(tasks := old(session.S()).tasks[taskId := task])
    ensures task.id == taskId && task.operationId == o.id && task.view.status.TaskRunning? && !task.noticeEmitted
    ensures task.conflictKey == BuildConflictKey(call.action, [call.args.target]) && task.targets == [call.args.target]
    ensures NoTerminalTaskOf(o.id, session.S().tasks) && Holds(p, session.S())
    ensures o.id in session.S().operations && session.S().operations[o.id] == o
  {
    hide Inv, Evolves, Enabled, Apply;
    var targets := [call.args.target];
    task := Task(taskId, o.id, BuildConflictKey(call.action, targets), targets,
                 TaskView(MapDbaasTaskStatus(Some("RUNNING")), Some("RUNNING"), Some("task created"), None, None, None),
                 false);
    TaskRecordable(p, session.S(), o, a, call, task);
    session.AppendTask(task);
    session.Commit(p, TaskRecorded(task), origin);
  }

  /** The record and its result say how the tool ended. */
  predicate Recorded(oid: nat, result: OperationResult, s: State)
  {
    oid in s.operations && s.operations[oid].status == result.status && s.operations[oid].result == Some(result)
  }

  function SyncStatus(readFails: bool, wire: Wire): OperationStatus
  {
    if readFails then Failed else if Answered(wire) then Succeeded else if wire.late then Timeout else Failed
  }

  /** The two synchronous tools: read the service, write, record what came back. */
  method RunSyncBody(session: Session, p: Pid, o: Operation, a: Approval, call: ToolCall, luck: Luck,
                     ghost origin: State)
    returns (r: ToolOutcome)
    requires session.Settled() && Evolves(origin, session.S()) && Working(p, session.S(), o, a, call)
    requires Untried(o.id, session.S())
    modifies session
    ensures old(session.approvals) <= session.approvals
    ensures session.Settled() && Evolves(origin, session.S()) && BodyEffect(p, old(session.S()), session.S(), call)
    // the request is sent unless the service cannot be read, and received if the wire lets it through
    ensures session.S().tries == old(session.S()).tries + if luck.readFails then [] else [RequestFor(p, o, call)]
    ensures session.S().writes
            == old(session.S()).writes
               + if !luck.readFails && luck.wire.received then [RequestFor(p, o, call)] else []
    // what came back is returned and recorded
    ensures r.Raised? <==> !luck.readFails && Uncaught(luck.wire)
    ensures r.Returned? ==> r.result == OperationResult(SyncStatus(luck.readFails, luck.wire), [call.args.target], None)
    ensures r.Returned? ==> Recorded(o.id, r.result, session.S())
  {
    hide Inv, Evolves, Rely, MayRun, StandsFor, Working, BodyEffect, Untried, Answered, Uncaught;
    ghost var s := session.S();
    NothingSent(p, s, call);
    assert s.tries + [] == s.tries && s.writes + [] == s.writes;
    var reply := Refused;
    if !luck.readFails {
      reply := SendWrite(session, p, o, a, call, luck.wire, origin);
      if reply.Lost? {
        return Raised;
      }
    }
    ghost var before := session.S();
    session.Interfere(p, origin);
    WorkingKept(p, before, session.S(), o, a, call);
    NothingMoreSent(p, s, before, session.S(), call);
    ghost var waited := session.S();
    var status := match reply case Done(_) => Succeeded case TimedOut => Timeout case _ => Failed;
    var completed := CompleteWorking(session, p, o, a, call, status, origin);
    NothingMoreSent(p, s, waited, session.S(), call);
    return Returned(completed.result.value);
  }

  /** Completes an operation of which the copy in hand is current. */
  method RecordOutcome(session: Session, p: Pid, o: Operation, result: OperationResult, ghost origin: State)
    returns (completed: Operation)
    requires session.Settled() && Evolves(origin, session.S()) && Holds(p, session.S())
    requires o.id in session.S().operations && session.S().operations[o.id] == o
    requires NoTerminalTaskOf(o.id, session.S().tasks)
    modifies session
    ensures old(session.approvals) <= session.approvals
    ensures session.Settled() && Evolves(origin, session.S())
    ensures completed == o.(status := result.status, result := Some(result))
    ensures session.S() == old(session.S()).(operations := old(session.S()).operations[o.id := completed])
  {
    hide Inv, Evolves, Enabled, Apply, NoTerminalTaskOf;
    CompletionIsStep(p, session.S(), o, result);
    completed := CompleteOperation(session, o, result);
    session.Commit(p, OperationCompleted(o.id, result), origin);
  }

  /** Completes an operation that has no task. */
  method CompleteWorking(session: Session, p: Pid, o: Operation, a: Approval, call: ToolCall, status: OperationStatus,
                         ghost origin: State)
    returns (completed: Operation)
    requires session.Settled() && Evolves(origin, session.S()) && Working(p, session.S(), o, a, call)
    modifies session
    ensures old(session.approvals) <= session.approvals
    ensures session.Settled() && Evolves(origin, session.S())
    ensures completed == o.(status := status, result := Some(OperationResult(status, [call.args.target], None)))
    ensures session.S() == old(session.S()).(operations := old(session.S()).operations[o.id := completed])
    ensures Recorded(o.id, completed.result.value, session.S())
  {
    hide Inv, Evolves;
    completed := RecordOutcome(session, p, o, OperationResult(status, [call.args.target], None), origin);
  }

  /** How an asynchronous tool that lived to the end has fared. */
  function AsyncStatus(conflict: bool, wire: Wire): OperationStatus
  {
    if conflict then Failed
    else if Answered(wire) && wire.named then TaskCreated
    else if !Answered(wire) && wire.late then Timeout
    else Failed
  }

  /** Whether an asynchronous tool gets as far as recording the task. */
  predicate Records(conflict: bool, luck: Luck)
  {
    !conflict && Answered(luck.wire) && luck.wire.named && !luck.death.BeforeTask?
  }

  /** The two asynchronous tools: refuse on conflict, write, record the task, then the operation. The last
      two appends must not be separated by a task refresh. */
  method RunAsyncBody(session: Session, p: Pid, o: Operation, a: Approval, call: ToolCall, luck: Luck,
                      ghost origin: State)
    returns (r: ToolOutcome)
    requires session.Settled() && Evolves(origin, session.S()) && Working(p, session.S(), o, a, call)
    requires Untried(o.id, session.S())
    modifies session
    ensures old(session.approvals) <= session.approvals
    ensures session.Settled() && Evolves(origin, session.S()) && BodyEffect(p, old(session.S()), session.S(), call)
    ensures var conflict := !NoConflict(BuildConflictKey(call.action, [call.args.target]), old(session.S()).tasks);
            var sent := if conflict then [] else [RequestFor(p, o, call)];
            && session.S().tries == old(session.S()).tries + sent
            && session.S().writes == old(session.S()).writes + (if luck.wire.received then sent else [])
            && (r.Raised? <==> luck.death.BeforeTask? || (!conflict && Uncaught(luck.wire))
                               || (Records(conflict, luck) && luck.death.AfterTask?))
            && (r.Returned? ==> r.result.status == AsyncStatus(conflict, luck.wire)
                                && r.result.targets == [call.args.target] && Recorded(o.id, r.result, session.S()))
            && (Records(conflict, luck) <==> !NoTaskOf(o.id, session.S().tasks))
            && (Records(conflict, luck) ==> TaskFor(o.id, call, session.S().tasks))
  {
    hide *;
    ghost var s := session.S();
    NothingSent(p, s, call);
    assert s.tries + [] == s.tries && s.writes + [] == s.writes;
    var conflict := FindConflictingTask(session, BuildConflictKey(call.action, [call.args.target]));
    var reply := Refused;
    if conflict.None? {
      reply := SendWrite(session, p, o, a, call, luck.wire, origin);
    }
    WorkingMeans(p, session.S(), o, a, call);
    ghost var before := session.S();
    session.Interfere(p, origin);
    WorkingKept(p, before, session.S(), o, a, call);
    WorkingMeans(p, session.S(), o, a, call);
    NothingMoreSent(p, s, before, session.S(), call);
    before := session.S();
    if reply.Lost? || luck.death.BeforeTask? {
      LuckMeans(conflict.Some?, luck, reply);
      return Raised;
    }
    LuckMeans(conflict.Some?, luck, reply);
    if reply.Done? && reply.taskId.Some? {
      var task := CreateTaskRecord(session, p, o, a, call, reply.taskId.value, origin);
      NothingMoreSent(p, s, before, session.S(), call);
      HasTask(o.id, call, session.S().tasks, task.id);
      if luck.death.AfterTask? {
        return Raised;
      }
      var result := OperationResult(TaskCreated, [call.args.target], Some(TaskRef(task.id, task.view.status)));
      var completed := RecordOutcome(session, p, o, result, origin);
      RecordedHere(o, result, session.S());
      NothingMoreSent(p, s, before, session.S(), call);
      return Returned(result);
    }
    var completed := CompleteWorking(session, p, o, a, call, if reply.TimedOut? then Timeout else Failed, origin);
    NothingMoreSent(p, s, before, session.S(), call);
    return Returned(completed.result.value);
  }

  lemma RecordedHere(o: Operation, result: OperationResult, s: State)
    requires o.id in s.operations && s.operations[o.id] == o.(status := result.status, result := Some(result))
    ensures Recorded(o.id, result, s)
  {
  }

  lemma WorkingMeans(p: Pid, s: State, o: Operation, a: Approval, call: ToolCall)
    requires Working(p, s, o, a, call)
    ensures NoTaskOf(o.id, s.tasks) && o.id in s.operations && s.operations[o.id] == o
  {
  }

  /** What the reply says about the luck of an asynchronous tool. */
  lemma LuckMeans(conflict: bool, luck: Luck, reply: Reply)
    requires if conflict then reply.Refused?
             else (reply.Done? <==> Answered(luck.wire)) && (reply.Lost? <==> Uncaught(luck.wire))
                  && (reply.TimedOut? <==> !Answered(luck.wire) && luck.wire.late)
                  && (reply.Done? ==> (reply.taskId.Some? <==> luck.wire.named))
    ensures !luck.death.BeforeTask? ==> (Records(conflict, luck) <==> reply.Done? && reply.taskId.Some?)
    ensures luck.death.BeforeTask? ==> !Records(conflict, luck)
    ensures reply.Lost? ==> !Records(conflict, luck) && !conflict && Uncaught(luck.wire)
    ensures !reply.Lost? ==> conflict || !Uncaught(luck.wire)
    ensures AsyncStatus(conflict, luck.wire) == if reply.Done? && reply.taskId.Some? then TaskCreated
                                                else if reply.TimedOut? then Timeout else Failed
  {
  }

  /** A new operation stands for the call, the request for it, if one was sent, is the last one sent, and what the
      tool returns is recorded. */
  predicate Attempted(p: Pid, a: Approval, call: ToolCall, sent: bool, r: ToolOutcome, s: State, s': State)
  {
    exists i ::
      && i in s'.operations && i !in s.operations && StandsFor(s'.operations[i], a, call)
      && (r.Returned? ==> Recorded(i, r.result, s'))
      && s'.tries == s.tries + if sent then [Write(i, s'.operations[i].toolCallId, call, p)] else []
  }

  lemma AttemptedFor(p: Pid, a: Approval, call: ToolCall, o: Operation, sent: bool, r: ToolOutcome, s: State,
                     s1: State, s': State)
    requires r.Returned? ==> Recorded(o.id, r.result, s')
    requires StandsFor(o, a, call) && o.id !in s.operations && o.id in s1.operations && s1.operations[o.id] == o
    requires Evolves(s1, s') && s'.tries == s.tries + if sent then [RequestFor(p, o, call)] else []
    ensures Attempted(p, a, call, sent, r, s, s')
  {
    assert SameOperation(s'.operations[o.id], o);
  }

  /** An operation that stood for the call decides what the tool says: its result, or that nobody knows. */
  predicate AnsweredBefore(a: Approval, call: ToolCall, s: State, r: ToolOutcome)
  {
    exists i :: i in s.operations && Covers(s.operations[i], a, call)
                && r == Returned(if s.operations[i].result.Some? then s.operations[i].result.value
                                 else OperationResult(Unknown, [call.args.target], None))
  }

  /** One run of a write tool on behalf of an approval. */
  method RunWriteTool(session: Session, p: Pid, a: Approval, call: ToolCall, luck: Luck, ghost origin: State)
    returns (r: ToolOutcome)
    requires session.Settled() && Evolves(origin, session.S()) && MayRun(p, session.S(), a, call)
    modifies session
    ensures old(session.approvals) <= session.approvals
    ensures session.Settled() && Evolves(origin, session.S()) && BodyEffect(p, old(session.S()), session.S(), call)
    // a call that an operation already stands for is never sent again ...
    ensures !Uncovered(old(session.S()).operations, a, call) ==>
              session.S().tries == old(session.S()).tries && session.S().writes == old(session.S()).writes
              && AnsweredBefore(a, call, old(session.S()), r)
    // ... and if a crash left that operation without a result, it is closed as unknown
    ensures forall i :: i in old(session.S()).operations && CarriesId(old(session.S()).operations[i], a, call)
                        && old(session.S()).operations[i].result.None? ==>
                          r == Returned(OperationResult(Unknown, [call.args.target], None))
                          && i in session.S().operations && OperationShows(session.S().operations[i], Unknown)
    // any other call is recorded, and sent unless the process dies, the service cannot be read, or a task conflicts
    ensures Uncovered(old(session.S()).operations, a, call) ==>
              || Attempted(p, a, call, true, r, old(session.S()), session.S())
              || Attempted(p, a, call, false, r, old(session.S()), session.S())
    ensures Uncovered(old(session.S()).operations, a, call) && WillSend(call, luck, old(session.S()).tasks) ==>
              Attempted(p, a, call, true, r, old(session.S()), session.S())
    // and how that went is what the tool says
    ensures Uncovered(old(session.S()).operations, a, call) && luck.death.Lives? && !Uncaught(luck.wire) ==> r.Returned?
    ensures Uncovered(old(session.S()).operations, a, call) && r.Returned? && !IsAsync(call.action) ==>
              r.result.status == SyncStatus(luck.readFails, luck.wire)
    ensures Uncovered(old(session.S()).operations, a, call) && r.Returned? && IsAsync(call.action) ==>
              r.result.status == AsyncStatus(session.S().tries == old(session.S()).tries, luck.wire)
  {
    hide Inv, Evolves, Rely, Working, SameDecision, StandsFor, CarriesId, Covers, Uncovered, BodyEffect, Enabled, Apply,
         NoTerminalTaskOf, Untried, NoConflict, BuildConflictKey, NoTaskOf, Attempted, AnsweredBefore, MayRun;
    ghost var s := session.S();
    NothingSent(p, s, call);
    var existing := FindExisting(session, a, call);
    if existing.Some? {
      OnlyOneCarries(s, existing.value, a, call);
      AnsweredFrom(s, existing.value, a, call);
      if existing.value.result.Some? {
        return Returned(existing.value.result.value);
      }
      FinishedHasResult(s, existing.value);
      var result := OperationResult(Unknown, [call.args.target], None);
      MayRunMeans(p, s, a, call);
      CompletionIsStep(p, s, existing.value, result);
      var unknown := MarkStartedUnknown(session, existing.value, call.args.target);
      session.Commit(p, OperationCompleted(existing.value.id, result), origin);
      NothingMoreSent(p, s, s, session.S(), call);
      return Returned(unknown.result.value);
    }
    NoneCarries(s, a, call);
    r := RunNewCall(session, p, a, call, luck, origin);
  }

  /** The request will be sent, whatever the others do. */
  predicate WillSend(call: ToolCall, luck: Luck, tasks: map<nat, Task>)
  {
    && !luck.death.AtStart?
    && if IsAsync(call.action) then NoConflict(BuildConflictKey(call.action, [call.args.target]), tasks)
       else !luck.readFails
  }

  /** A call that no operation stands for. */
  method RunNewCall(session: Session, p: Pid, a: Approval, call: ToolCall, luck: Luck, ghost origin: State)
    returns (r: ToolOutcome)
    requires session.Settled() && Evolves(origin, session.S()) && MayRun(p, session.S(), a, call)
    requires Uncovered(session.S().operations, a, call)
    modifies session
    ensures old(session.approvals) <= session.approvals
    ensures session.Settled() && Evolves(origin, session.S()) && BodyEffect(p, old(session.S()), session.S(), call)
    ensures || Attempted(p, a, call, true, r, old(session.S()), session.S())
            || Attempted(p, a, call, false, r, old(session.S()), session.S())
    ensures WillSend(call, luck, old(session.S()).tasks) ==>
              Attempted(p, a, call, true, r, old(session.S()), session.S())
    ensures luck.death.Lives? && !Uncaught(luck.wire) ==> r.Returned?
    ensures r.Returned? && !IsAsync(call.action) ==> r.result.status == SyncStatus(luck.readFails, luck.wire)
    ensures r.Returned? && IsAsync(call.action) ==>
              r.result.status == AsyncStatus(session.S().tries == old(session.S()).tries, luck.wire)
  {
    hide *;
    ghost var s := session.S();
    assert s.tries + [] == s.tries;
    StatusOfSync(luck);
    var o := BeginCall(session, p, a, call, origin);
    ghost var before := session.S();
    EvolvesReflexive(before);
    WhetherSent(call, luck, s.tasks, before.tasks);
    if luck.death.AtStart? {
      AttemptedFor(p, a, call, o, false, Raised, s, before, before);
      return Raised;
    }
    if IsAsync(call.action) {
      ghost var free := NoConflict(BuildConflictKey(call.action, [call.args.target]), before.tasks);
      r := RunAsyncBody(session, p, o, a, call, luck, before);
      AttemptedFor(p, a, call, o, free, r, s, before, session.S());
      LivesOn(!free, luck);
    } else {
      r := RunSyncBody(session, p, o, a, call, luck, before);
      AttemptedFor(p, a, call, o, !luck.readFails, r, s, before, session.S());
    }
    EvolvesTransitive(origin, before, session.S());
    NothingSentBefore(p, s, before, session.S(), call);
  }

  lemma LivesOn(conflict: bool, luck: Luck)
    ensures luck.death.Lives? && Records(conflict, luck) ==> !luck.death.AfterTask?
  {
  }

  lemma StatusOfSync(luck: Luck)
    ensures luck.death.Lives? ==> !luck.death.BeforeTask? && !luck.death.AtStart?
  {
  }

  lemma WhetherSent(call: ToolCall, luck: Luck, tasks: map<nat, Task>, tasks': map<nat, Task>)
    requires forall key :: NoConflict(key, tasks) ==> NoConflict(key, tasks')
    ensures WillSend(call, luck, tasks) ==>
              && !luck.death.AtStart? && (!IsAsync(call.action) ==> !luck.readFails)
              && (IsAsync(call.action) ==> NoConflict(BuildConflictKey(call.action, [call.args.target]), tasks'))
  {
  }

  /** Records the operation; then the others may act. */
  method BeginCall(session: Session, p: Pid, a: Approval, call: ToolCall, ghost origin: State) returns (o: Operation)
    requires session.Settled() && Evolves(origin, session.S()) && MayRun(p, session.S(), a, call)
    requires Uncovered(session.S().operations, a, call)
    modifies session
    ensures session.Settled() && Evolves(origin, session.S()) && old(session.approvals) <= session.approvals
    ensures Working(p, session.S(), o, a, call) && Untried(o.id, session.S())
    ensures StandsFor(o, a, call) && o.id !in old(session.S()).operations
    ensures o.id in session.S().operations && session.S().operations[o.id] == o
    ensures session.S().tries == old(session.S()).tries && session.S().writes == old(session.S()).writes
    ensures session.S().lock == old(session.S()).lock && session.S().resumes == old(session.S()).resumes
    ensures WaitingKept(old(session.S()).approvals, session.S().approvals)
    ensures forall key :: NoConflict(key, old(session.S()).tasks) ==> NoConflict(key, session.S().tasks)
    ensures BodyEffect(p, old(session.S()), session.S(), call)
  {
    hide *;
    session.SettledMeans();
    ghost var s := session.S();
    NothingSent(p, s, call);
    o := StartOperation(session, p, a, call, origin);
    StartedWorks(p, s, session.S(), o, a, call);
    ghost var started := session.S();
    session.Interfere(p, origin);
    WorkingKept(p, started, session.S(), o, a, call);
    WorkingMeans(p, session.S(), o, a, call);
    NothingMoreSent(p, s, s, session.S(), call);
    UntriedStill(o.id, started, session.S());
  }

  lemma UntriedStill(oid: nat, s: State, s': State)
    requires Untried(oid, s) && s'.tries == s.tries && s'.writes == s.writes
    ensures Untried(oid, s')
  {
  }

  lemma AnsweredFrom(s: State, found: Operation, a: Approval, call: ToolCall)
    requires found.id in s.operations && s.operations[found.id] == found && Covers(found, a, call)
    ensures AnsweredBefore(a, call, s, Returned(if found.result.Some? then found.result.value
                                                else OperationResult(Unknown, [call.args.target], None)))
    ensures !Uncovered(s.operations, a, call)
  {
  }

  lemma MayRunMeans(p: Pid, s: State, a: Approval, call: ToolCall)
    requires MayRun(p, s, a, call)
    ensures Holds(p, s)
  {
  }

  // ---------------------------------------------------------------- the calls of one approval

  /** An operation that stands for one of the listed calls leaves every other one to be run, if ids tell the
      calls apart and they are meant for different targets. */
  lemma OthersAreNotCovered(a: Approval, j: nat, k: nat, o: Operation)
    requires ToldApart(a.calls) && j < |a.calls| && k < |a.calls| && j != k
    requires StandsFor(o, a, a.calls[j]) && a.calls[j].args.target != a.calls[k].args.target
    requires o.result.Some? ==> o.result.value.targets == [a.calls[j].args.target]
    ensures !Covers(o, a, a.calls[k])
  {
    OwnId(a.calls, j);
    OwnId(a.calls, k);
    var x, y := a.calls[j].args.target, a.calls[k].args.target;
    assert multiset([x])[x] == 1 && multiset([y])[x] == 0;
  }

  /** Of calls that are told apart, each is protected by its own id, and an operation that carries the id of
      one stands for no other. */
  lemma EachHasItsOwn(a: Approval, j: nat, k: nat, o: Operation)
    requires ToldApart(a.calls) && j < |a.calls| && k < |a.calls| && StandsFor(o, a, a.calls[j])
    ensures o.toolCallId == Some(a.calls[j].toolCallId)
    ensures CarriesId(o, a, a.calls[k]) <==> j == k
  {
    OwnId(a.calls, j);
    OwnId(a.calls, k);
  }

  /** An operation without a result has no finished task. */
  lemma FinishedHasResult(s: State, o: Operation)
    requires Inv(s) && o.id in s.operations && s.operations[o.id] == o && o.result.None?
    ensures NoTerminalTaskOf(o.id, s.tasks)
  {
    assert forall t :: t in s.tasks ==> TaskOk(s.tasks[t], s.operations);
  }

  lemma NoneCarries(s: State, a: Approval, call: ToolCall)
    requires Uncovered(s.operations, a, call)
    ensures forall i :: i in s.operations ==> !CarriesId(s.operations[i], a, call)
  {
  }

  /** A new operation id occurs in no task and in no write request. */
  lemma StartedWorks(p: Pid, s: State, s': State, o: Operation, a: Approval, call: ToolCall)
    requires Inv(s) && MayRun(p, s, a, call) && StandsFor(o, a, call)
    requires o.id !in s.operations && s' == s.(operations := s.operations[o.id := o])
    ensures Working(p, s', o, a, call) && Untried(o.id, s')
  {
    assert forall t :: t in s.tasks ==> TaskOk(s.tasks[t], s.operations);
    assert forall w :: w in s.writes ==> WriteOk(w, s);
    assert forall w :: w in s.tries ==> WriteOk(w, s);
  }

  /** The protected id singles out the operation that was found. */
  lemma OnlyOneCarries(s: State, found: Operation, a: Approval, call: ToolCall)
    requires Inv(s) && found.id in s.operations && s.operations[found.id] == found && Covers(found, a, call)
    requires !CarriesId(found, a, call) ==> forall i :: i in s.operations ==> !CarriesId(s.operations[i], a, call)
    ensures forall i :: i in s.operations && CarriesId(s.operations[i], a, call) ==> s.operations[i] == found
  {
  }
}
