/** Operations: the idempotence layer below the write tools (operations/operation_service.py). */
module OperationService {
  import opened Wrappers
  import opened AppendLog
  import opened SessionRecords
  import opened SessionProtocol
  import opened SessionStore

  predicate CarriesId(o: Operation, a: Approval, call: ToolCall)
  {
    var id := FindInterruptedToolCallId(a.calls, call.action, call.args);
    id.Some? && o.toolCallId == id
  }

  predicate SameTargets(o: Operation, a: Approval, call: ToolCall)
  {
    o.approvalId == Some(a.id) && o.action == call.action
    && o.result.Some? && multiset(o.result.value.targets) == multiset([call.args.target])
  }

  /** The operation already stands for this call: by its id, or by a recorded result on the same targets. */
  predicate Covers(o: Operation, a: Approval, call: ToolCall)
  {
    CarriesId(o, a, call) || SameTargets(o, a, call)
  }

  /** An operation stands for a call exactly if it carries the id of the first listed call that fits it, or if it
      belongs to the same approval and action and has a result on the same target. */
  lemma CoversExactly(o: Operation, a: Approval, call: ToolCall, k: nat)
    requires FirstFit(a.calls, call.action, call.args, k)
    ensures Covers(o, a, call)
            <==> (a.calls[k].toolCallId != "" && o.toolCallId == Some(a.calls[k].toolCallId))
                 || (o.approvalId == Some(a.id) && o.action == call.action && o.result.Some?
                     && multiset(o.result.value.targets) == multiset{call.args.target})
  {
    InterruptedIdExactly(a.calls, call.action, call.args);
    assert multiset([call.args.target]) == multiset{call.args.target};
  }

  /** The approval in hand is an approved one, as decided, and the call is one of those it lists. */
  predicate MayRun(p: Pid, s: State, a: Approval, call: ToolCall)
  {
    Holds(p, s) && a.id in s.approvals && SameDecision(a, s.approvals[a.id]) && a.status.Approved? && call in a.calls
  }

  /** The search of `find_existing` over the folded operations, for a tool run on behalf of an approval. */
  method FirstCovering(all: seq<Operation>, a: Approval, call: ToolCall) returns (r: Option<Operation>)
    ensures r.Some? ==> r.value in all && Covers(r.value, a, call)
    ensures r.None? ==> forall o :: o in all ==> !Covers(o, a, call)
    ensures r.Some? && !CarriesId(r.value, a, call) ==> forall o :: o in all ==> !CarriesId(o, a, call)
  {
    for i := 0 to |all|
      invariant forall j :: 0 <= j < i ==> !CarriesId(all[j], a, call)
    {
      if CarriesId(all[i], a, call) {
        return Some(all[i]);
      }
    }
    for i := 0 to |all|
      invariant forall j :: 0 <= j < i ==> !SameTargets(all[j], a, call)
    {
      if SameTargets(all[i], a, call) {
        return Some(all[i]);
      }
    }
    return None;
  }

  predicate Uncovered(operations: map<nat, Operation>, a: Approval, call: ToolCall)
  {
    forall i :: i in operations ==> !Covers(operations[i], a, call)
  }

  /** `find_existing`: nothing is found only if nothing stands for the call, and an operation that carries
      the call's id is preferred. */
  method FindExisting(session: Session, a: Approval, call: ToolCall) returns (r: Option<Operation>)
    ensures r.None? <==> Uncovered(session.S().operations, a, call)
    ensures r.Some? ==> r.value.id in session.S().operations && session.S().operations[r.value.id] == r.value
                        && Covers(r.value, a, call)
    ensures r.Some? && !CarriesId(r.value, a, call) ==>
              forall i :: i in session.S().operations ==> !CarriesId(session.S().operations[i], a, call)
  {
    var all := session.LoadOperations();
    r := FirstCovering(all, a, call);
  }

  /** `start_operation`: records the operation unless one already stands for the call. */
  method StartOperation(session: Session, p: Pid, a: Approval, call: ToolCall, ghost origin: State)
    returns (o: Operation)
    requires session.Settled() && Evolves(origin, session.S()) && MayRun(p, session.S(), a, call)
    modifies session
    ensures old(session.approvals) <= session.approvals
    ensures session.Settled() && Evolves(origin, session.S())
    ensures o.id in session.S().operations && session.S().operations[o.id] == o
    ensures !Uncovered(old(session.S()).operations, a, call) ==> session.S() == old(session.S()) && Covers(o, a, call)
    ensures Uncovered(old(session.S()).operations, a, call) ==>
              && o.id !in old(session.S()).operations && o.status.Started? && o.result.None?
              && StandsFor(o, a, call)
              && session.S() == old(session.S()).(operations := old(session.S()).operations[o.id := o])
  {
    hide Inv, Evolves;
    var existing := FindExisting(session, a, call);
    if existing.Some? {
      return existing.value;
    }
    var id := FreshId(Latest(session.operations, OperationId).Keys);
    o := Operation(id, Some(a.id), FindInterruptedToolCallId(a.calls, call.action, call.args), call.action, Started,
                   None);
    assert Unprotected(o, session.S().operations) by {
      assert forall i :: i in session.S().operations ==> !CarriesId(session.S().operations[i], a, call);
    }
    session.AppendOperation(o);
    session.Commit(p, OperationStarted(o, call), origin);
  }

  /** What the log comes to when an operation is completed from a copy, whatever the log holds by then. */
  function CompleteFromCopy(s: State, o: Operation, result: OperationResult): State
  {
    s.(operations := s.operations[o.id := o.(status := result.status, result := Some(result))])
  }

  /** `complete_operation`: appends the copy in hand with its outcome. */
  method CompleteOperation(session: Session, o: Operation, result: OperationResult) returns (completed: Operation)
    modifies session`operations
    ensures completed == o.(status := result.status, result := Some(result))
    ensures session.S() == CompleteFromCopy(old(session.S()), o, result)
  {
    completed := o.(status := result.status, result := Some(result));
    session.AppendOperation(completed);
  }

  /** `mark_started_unknown`: an operation that a crash left without a result is closed, not repeated. */
  method MarkStartedUnknown(session: Session, o: Operation, target: Target) returns (completed: Operation)
    modifies session`operations
    ensures OperationShows(completed, Unknown) && SameOperation(completed, o)
    ensures session.S() == CompleteFromCopy(old(session.S()), o, OperationResult(Unknown, [target], None))
    ensures completed.result == Some(OperationResult(Unknown, [target], None))
  {
    completed := CompleteOperation(session, o, OperationResult(Unknown, [target], None));
  }

  /** From a copy that is current, by the holder of the run lock and before any task of the operation has
      finished, that is a step of the protocol; SessionLimits says what it is otherwise. */
  lemma CompletionIsStep(p: Pid, s: State, o: Operation, result: OperationResult)
    requires Holds(p, s) && o.id in s.operations && s.operations[o.id] == o && NoTerminalTaskOf(o.id, s.tasks)
    ensures Enabled(p, s, OperationCompleted(o.id, result))
    ensures Apply(p, s, OperationCompleted(o.id, result)) == CompleteFromCopy(s, o, result)
  {
  }
}
