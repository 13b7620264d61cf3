/** Where the session's guarantees end: for each assumption the protocol makes, what happens without it, and
    exactly when that does harm. */
module SessionLimits {
  import opened Wrappers
  import opened SessionRecords
  import opened SessionProtocol
  import opened OperationService
  import opened TaskService

  // ---------------------------------------------------------------- a refresh between two appends

  predicate FinishedTaskDisagrees(s: State, oid: nat, status: OperationStatus)
  {
    exists t :: t in s.tasks && s.tasks[t].operationId == oid && Terminal(s.tasks[t])
                && OperationStatusFromTask(s.tasks[t].view.status) != Some(status)
  }

  /** Completing an operation keeps tasks and operations in agreement exactly if no task of it has finished
      with another status in the meantime. */
  lemma CompletionAgrees(s: State, o: Operation, result: OperationResult)
    requires TasksOk(s) && o.id in s.operations && SameOperation(o, s.operations[o.id])
    ensures TasksOk(CompleteFromCopy(s, o, result)) <==> !FinishedTaskDisagrees(s, o.id, result.status)
  {
    var s' := CompleteFromCopy(s, o, result);
    if FinishedTaskDisagrees(s, o.id, result.status) {
      var t :| t in s.tasks && s.tasks[t].operationId == o.id && Terminal(s.tasks[t])
               && OperationStatusFromTask(s.tasks[t].view.status) != Some(result.status);
      assert !TaskOk(s'.tasks[t], s'.operations);
    } else {
      assert forall t :: t in s.tasks ==> TaskOk(s.tasks[t], s.operations);
      forall t | t in s'.tasks ensures s'.tasks[t].id == t && TaskOk(s'.tasks[t], s'.operations) {
      }
    }
  }

  /** A tool that reports the task it created is always too late if the task has finished. */
  lemma TaskCreatedComesTooLate(s: State, o: Operation, result: OperationResult, t: nat)
    requires TasksOk(s) && o.id in s.operations && SameOperation(o, s.operations[o.id]) && result.status.TaskCreated?
    requires t in s.tasks && s.tasks[t].operationId == o.id && Terminal(s.tasks[t])
    ensures !TasksOk(CompleteFromCopy(s, o, result))
  {
    CompletionAgrees(s, o, result);
    assert FinishedTaskDisagrees(s, o.id, result.status);
  }

  // ---------------------------------------------------------------- two refreshes at once

  /** The task in the log evolved from the copy. */
  predicate OlderCopy(s: State, copy: Task)
  {
    copy.id in s.tasks && SameTask(s.tasks[copy.id], copy) && !Terminal(copy) && !copy.noticeEmitted
  }

  /** A refresh that was overtaken takes nothing back exactly if it writes nothing, or the task is still
      unfinished in the log, or it writes once more what the log says and the notice is still due. */
  lemma OvertakenRefresh(s: State, copy: Task, answer: Answer)
    requires TasksOk(s) && OlderCopy(s, copy)
    ensures var t, c := s.tasks[copy.id], Candidate(copy, answer);
            TasksEvolve(s.tasks, RefreshFromCopy(s, copy, false, answer).tasks)
            <==> c.view == copy.view || !Terminal(t) || (c.view == t.view && !t.noticeEmitted)
  {
    var t, c := s.tasks[copy.id], Candidate(copy, answer);
    var s' := RefreshFromCopy(s, copy, false, answer);
    assert TaskOk(t, s.operations);
    if c.view != copy.view {
      assert s'.tasks[copy.id] == c;
      assert SameTask(c, t);
    }
  }

  /** In these harmless cases the invariant survives as well. */
  lemma OvertakenRefreshKeepsTasks(s: State, copy: Task, answer: Answer)
    requires TasksOk(s) && OlderCopy(s, copy) && TasksEvolve(s.tasks, RefreshFromCopy(s, copy, false, answer).tasks)
    ensures TasksOk(RefreshFromCopy(s, copy, false, answer))
  {
    OvertakenRefresh(s, copy, answer);
    var t, c := s.tasks[copy.id], Candidate(copy, answer);
    var s' := RefreshFromCopy(s, copy, false, answer);
    if c.view != copy.view {
      assert TaskOk(t, s.operations);
      forall i | i in s'.tasks ensures s'.tasks[i].id == i && TaskOk(s'.tasks[i], s'.operations) {
        if i != copy.id {
          assert s.tasks[i].operationId != t.operationId;
        }
      }
      forall i, j | i in s'.tasks && j in s'.tasks && i != j
        ensures s'.tasks[i].operationId != s'.tasks[j].operationId
                && (s'.tasks[i].conflictKey == s'.tasks[j].conflictKey ==>
                        Terminal(s'.tasks[i]) || Terminal(s'.tasks[j]))
      {
        assert s.tasks[i].operationId != s.tasks[j].operationId;
      }
    }
  }

  /** An overtaken refresh can announce a task twice: a finished, announced task is written back as finished
      and not announced. */
  lemma NoticeTakenBack() returns (s: State, copy: Task, answer: Answer)
    ensures TasksOk(s) && OlderCopy(s, copy)
    ensures s.tasks[copy.id].noticeEmitted && !RefreshFromCopy(s, copy, false, answer).tasks[copy.id].noticeEmitted
    ensures RefreshFromCopy(s, copy, false, answer).tasks[copy.id].view == s.tasks[copy.id].view
  {
    var running := TaskView(TaskRunning, Some("RUNNING"), None, None, None, None);
    var finished := TaskView(TaskSucceeded, Some("SUCCESS"), None, None, None, None);
    copy := Task(0, 0, ConflictKey(ImageUpgrade, multiset{}), [], running, false);
    answer := Answer(Some("SUCCESS"), None, None, None);
    var o := Operation(0, None, None, ImageUpgrade, Succeeded, Some(OperationResult(Succeeded, [], None)));
    var announced := copy.(view := finished, noticeEmitted := true);
    s := State(map[], map[0 := o], map[0 := announced], None, 0, [], map[], [], [], [Mark(1, 0)]);
    assert MapDbaasTaskStatus(Some("SUCCESS")) == TaskSucceeded;
    assert Candidate(copy, answer).view == finished;
  }

  // ---------------------------------------------------------------- forced refresh

  /** A forced refresh brings a finished task back to life exactly if the server answers with a status that
      is not final; without an answer the task stays as it is. */
  lemma ForcedRefreshRevives(t: Task, answer: Answer)
    requires Terminal(t)
    ensures Terminal(Refreshed(t, true, answer))
            <==> answer.NoAnswer? || TerminalStatus(MapDbaasTaskStatus(answer.status))
    ensures answer.NoAnswer? ==> Refreshed(t, true, answer) == t
  {
  }

  // ---------------------------------------------------------------- what the tool call id protects

  /** If a crash cuts a tool short right after its operation was recorded, running the call again sends it
      again exactly if the call has no id of its own. */
  lemma CrashProtection(operations: map<nat, Operation>, a: Approval, call: ToolCall, o: Operation)
    requires Uncovered(operations, a, call) && o.id !in operations
    requires StandsFor(o, a, call) && o.result.None?
    ensures Uncovered(operations[o.id := o], a, call)
            <==> FindInterruptedToolCallId(a.calls, call.action, call.args).None?
  {
    var m := operations[o.id := o];
    assert Covers(m[o.id], a, call) <==> FindInterruptedToolCallId(a.calls, call.action, call.args).Some?;
    if FindInterruptedToolCallId(a.calls, call.action, call.args).None? {
      forall i | i in m ensures !Covers(m[i], a, call) {
        assert i != o.id ==> !Covers(operations[i], a, call);
      }
    }
  }

  /** A finished call answers for another call of the same approval exactly if both name the same action and
      target, whatever their other arguments, or share their id: then the other call is never sent. */
  lemma CallsCollapse(a: Approval, call: ToolCall, other: ToolCall, o: Operation)
    requires StandsFor(o, a, call) && o.result.Some? && o.result.value.targets == [call.args.target]
    ensures Covers(o, a, other) <==>
              (other.action == call.action && other.args.target == call.args.target)
              || (o.toolCallId.Some? && o.toolCallId == FindInterruptedToolCallId(a.calls, other.action, other.args))
  {
    var m, n := multiset([call.args.target]), multiset([other.args.target]);
    if call.args.target != other.args.target {
      assert m[other.args.target] == 0 && n[other.args.target] == 1;
    }
  }

  /** So an approval of two resource updates of one service with different values runs only the first. */
  lemma SecondUpdateIsSwallowed() returns (a: Approval, first: ToolCall, second: ToolCall, o: Operation)
    ensures a.calls == [first, second] && first.args != second.args && first.toolCallId != "" && second.toolCallId != ""
    ensures first.toolCallId != second.toolCallId
    ensures StandsFor(o, a, first) && o.result.Some? && Covers(o, a, second)
  {
    var target := Target("service", "db", map[]);
    first := ToolCall("a", ResourceUpdate, ToolArgs(target, map["cpu" := Text("2")]));
    second := ToolCall("b", ResourceUpdate, ToolArgs(target, map["cpu" := Text("4")]));
    assert first.args.rest["cpu"] != second.args.rest["cpu"];
    a := Approval(0, Approved, [first, second], false, None, None, None, None, ResumeInfo(false, None, None), false);
    o := Operation(0, Some(0), Some("a"), ResourceUpdate, Succeeded, Some(OperationResult(Succeeded, [target], None)));
    CallsCollapse(a, first, second, o);
  }
}
