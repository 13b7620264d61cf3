/** Approvals: creation, decision, expiry and resuming the paused agent (operations/approval_service.py). */
module ApprovalService {
  import opened Wrappers
  import opened AppendLog
  import opened SessionRecords
  import opened SessionProtocol
  import opened SessionStore
  import opened WriteTools
  import OperationService

  /** What the agent asks for when it pauses before write tools. */
  datatype Interrupt = Interrupt(requests: seq<(Action, ToolArgs)>, reviews: nat, toolCallIds: seq<string>,
                                 adminOnly: bool, ttlSeconds: nat)

  /** How the agent's turn ends: it raises, or answers, perhaps with a request for another approval. */
  datatype AgentReply = AgentRaised(error: string) | Replied(request: Option<Interrupt>)

  datatype ResumeOutcome = ResumeFailed | NextFailed | Resumed(approval: Approval, next: Option<Approval>)

  /** A decided approval, possibly an old copy of it. */
  predicate InHand(a: Approval, s: State)
  {
    a.id in s.approvals && !a.status.Pending? && SameDecision(a, s.approvals[a.id])
  }

  lemma InHandKept(a: Approval, s: State, s': State)
    requires InHand(a, s) && Evolves(s, s')
    ensures InHand(a, s')
  {
  }

  lemma Rewritable(p: Pid, a: Approval, s: State, resume: ResumeInfo, notice: bool)
    requires InHand(a, s)
    ensures var b := a.(resume := resume, creationNotice := notice);
            && b.id == a.id && InHand(b, s) && Enabled(p, s, ApprovalRewritten(b))
            && Apply(p, s, ApprovalRewritten(b)) == s.(approvals := s.approvals[b.id := b])
            && InHand(b, s.(approvals := s.approvals[b.id := b]))
  {
  }

  /** Writes the copy in hand back with other resume fields or another notice flag. */
  method WriteBack(session: Session, p: Pid, a: Approval, resume: ResumeInfo, notice: bool, ghost origin: State)
    returns (b: Approval)
    requires session.Settled() && Evolves(origin, session.S()) && InHand(a, session.S())
    modifies session
    ensures session.Settled() && Evolves(origin, session.S()) && InHand(b, session.S())
    ensures b == a.(resume := resume, creationNotice := notice) && session.approvals == old(session.approvals) + [b]
    ensures session.S() == old(session.S()).(approvals := old(session.S()).approvals[b.id := b])
  {
    hide Inv, Evolves, Enabled, Apply, InHand;
    b := a.(resume := resume, creationNotice := notice);
    Rewritable(p, a, session.S(), resume, notice);
    session.AppendApproval(b);
    session.Commit(p, ApprovalRewritten(b), origin);
  }

  // ---------------------------------------------------------------- creation

  /** The request is well formed, and for this user to make. */
  predicate WellFormed(i: Interrupt, user: Identity)
  {
    i.requests != [] && |i.requests| == i.reviews && (i.adminOnly ==> user.admin)
  }

  /** The calls recorded are the ones requested, in order, each with its id if one was found. */
  predicate Records(calls: seq<ToolCall>, i: Interrupt)
  {
    |calls| == |i.requests|
    && forall k :: 0 <= k < |calls| ==>
         calls[k] == ToolCall(if k < |i.toolCallIds| then i.toolCallIds[k] else "", i.requests[k].0, i.requests[k].1)
  }

  /** The approval is what was asked for, made in this span of time: it waits, for the calls requested and the
      role called for, and its time runs out after the seconds given, or five minutes. */
  predicate Requested(a: Approval, i: Interrupt, from: Time, to: Time)
  {
    && a.status.Pending? && Records(a.calls, i) && a.adminOnly == i.adminOnly && a.expiresAt.Some?
    && var ttl := if i.ttlSeconds == 0 then 300 else i.ttlSeconds;
       from + ttl <= a.expiresAt.value <= to + ttl
  }

  method RecordCalls(i: Interrupt) returns (calls: seq<ToolCall>)
    ensures Records(calls, i)
  {
    calls := [];
    for k := 0 to |i.requests|
      invariant |calls| == k
      invariant forall j :: 0 <= j < k ==>
                  calls[j] == ToolCall(if j < |i.toolCallIds| then i.toolCallIds[j] else "",
                                       i.requests[j].0, i.requests[j].1)
    {
      var id := if k < |i.toolCallIds| then i.toolCallIds[k] else "";
      calls := calls + [ToolCall(id, i.requests[k].0, i.requests[k].1)];
    }
  }

  lemma Creatable(p: Pid, a: Approval, s: State)
    requires Holds(p, s) && NoPending(s) && a.id !in s.approvals && FreshPending(a)
    ensures Enabled(p, s, ApprovalCreated(a))
    ensures Apply(p, s, ApprovalCreated(a)) == s.(approvals := s.approvals[a.id := a])
  {
  }

  lemma StillNonePending(p: Pid, s: State, s': State)
    requires Holds(p, s) && Rely(p, s, s') && NoPending(s)
    ensures NoPending(s') && s'.lock == s.lock && s'.writes == s.writes && Holds(p, s')
            && s'.approvals.Keys == s.approvals.Keys
    ensures s'.operations.Keys == s.operations.Keys && s'.tasks.Keys == s.tasks.Keys
    ensures s'.resumes == s.resumes && s.now <= s'.now
  {
    hide Inv;
  }

  /** `create_approval`; None stands for the refusals. */
  method CreateApproval(session: Session, p: Pid, user: Identity, i: Interrupt, ghost origin: State)
    returns (r: Option<Approval>)
    requires session.Settled() && Evolves(origin, session.S()) && Holds(p, session.S())
    modifies session
    ensures session.Settled() && Evolves(origin, session.S())
    ensures session.S().lock == old(session.S()).lock && session.S().writes == old(session.S()).writes
    ensures session.S().resumes == old(session.S()).resumes && old(session.S()).now <= session.S().now
    ensures r.Some? <==> NoPending(old(session.S())) && WellFormed(i, user)
    ensures r.Some? ==> r.value.id !in old(session.S()).approvals
                        && Requested(r.value, i, old(session.S()).now, session.S().now)
                        && r.value.id in session.S().approvals && session.S().approvals[r.value.id] == r.value
    ensures r.None? ==> session.S() == old(session.S())
    ensures old(session.approvals) <= session.approvals
    ensures session.S().operations.Keys == old(session.S()).operations.Keys
            && session.S().tasks.Keys == old(session.S()).tasks.Keys
  {
    hide *;
    ghost var s := session.S();
    var pending := session.HasPendingApproval();
    if pending || i.requests == [] || |i.requests| != i.reviews || (i.adminOnly && !user.admin) {
      NotWellFormed(i, user);
      return None;
    }
    NotWellFormed(i, user);
    session.Interfere(p, origin);
    StillNonePending(p, s, session.S());
    var a := NewApproval(session, i);
    RequestedSince(a, i, s.now, session.S().now);
    Creatable(p, a, session.S());
    session.SettledMeans();
    session.AppendApproval(a);
    session.Commit(p, ApprovalCreated(a), origin);
    r := Some(a);
  }

  lemma NotWellFormed(i: Interrupt, user: Identity)
    ensures WellFormed(i, user) <==> i.requests != [] && |i.requests| == i.reviews && (i.adminOnly ==> user.admin)
  {
  }

  lemma RequestedSince(a: Approval, i: Interrupt, from: Time, to: Time)
    requires Requested(a, i, to, to) && from <= to
    ensures Requested(a, i, from, to)
  {
  }

  /** The record as it is filled in. */
  method NewApproval(session: Session, i: Interrupt) returns (a: Approval)
    ensures Requested(a, i, session.S().now, session.S().now) && FreshPending(a) && a.id !in session.S().approvals
  {
    hide Records;
    var calls := RecordCalls(i);
    var id := FreshId(Latest(session.approvals, ApprovalId).Keys);
    var ttl := if i.ttlSeconds == 0 then 5 * 60 else i.ttlSeconds;
    a := Approval(id, Pending, calls, i.adminOnly, Some(session.now + ttl), None, None, None,
                  ResumeInfo(false, None, None), false);
  }

  // ---------------------------------------------------------------- resuming

  /** While p keeps the lock, the write requests sent are p's, for calls of the approval. */
  predicate SentFor(p: Pid, a: Approval, s: State, s': State)
  {
    && s'.lock == s.lock && s.writes <= s'.writes && WaitingKept(s.approvals, s'.approvals)
    && forall k :: |s.writes| <= k < |s'.writes| ==> s'.writes[k].call in a.calls && s'.writes[k].writer == p
  }

  lemma SentForMore(p: Pid, a: Approval, call: ToolCall, s: State, s1: State, s2: State, s3: State)
    requires SentFor(p, a, s, s1) && Holds(p, s) && Rely(p, s1, s2) && BodyEffect(p, s2, s3, call) && call in a.calls
    ensures SentFor(p, a, s, s3) && s3.resumes == s1.resumes
  {
    hide Inv;
  }

  lemma MayRunInHand(p: Pid, a: Approval, call: ToolCall, s: State)
    requires Holds(p, s) && InHand(a, s) && a.status.Approved? && call in a.calls
    ensures OperationService.MayRun(p, s, a, call)
  {
  }

  /** The agent set to work once more on this approval. */
  function Resumption(p: Pid, a: Approval, d: Decision): seq<Resume> { [Resume(p, a.id, d)] }

  lemma ResumptionIsStep(p: Pid, a: Approval, d: Decision, s: State)
    requires Holds(p, s) && InHand(a, s) && (d == Approve ==> a.status.Approved?)
    ensures var s' := s.(resumes := s.resumes + Resumption(p, a, d));
            && Enabled(p, s, AgentResumed(a.id, d)) && Apply(p, s, AgentResumed(a.id, d)) == s'
            && SentFor(p, a, s, s') && InHand(a, s') && Holds(p, s')
  {
  }

  /** The agent at work on behalf of an approval, as far as the session sees it: when the decision is to
      approve, it runs write tools for calls of this approval, in any number and order, and may fail in
      between; when it is to reject, it runs none. */
  method ResumeAgent(session: Session, p: Pid, a: Approval, d: Decision, ghost origin: State)
    requires session.Settled() && Evolves(origin, session.S()) && Holds(p, session.S()) && InHand(a, session.S())
    requires d == Approve ==> a.status.Approved?
    modifies session
    ensures old(session.approvals) <= session.approvals
    ensures session.Settled() && Evolves(origin, session.S()) && InHand(a, session.S())
    ensures SentFor(p, a, old(session.S()), session.S())
    ensures session.S().resumes == old(session.S()).resumes + Resumption(p, a, d)
    ensures d == Reject ==> session.S().writes == old(session.S()).writes
  {
    hide *;
    ghost var s := session.S();
    session.SettledMeans();
    ResumptionIsStep(p, a, d, s);
    session.NoteResume(Resume(p, a.id, d));
    TheResumption(p, a, d);
    session.Commit(p, AgentResumed(a.id, d), origin);
    if d == Approve && a.calls != [] {
      var rounds: int := *;
      while rounds > 0
        invariant session.Settled() && Evolves(origin, session.S()) && InHand(a, session.S())
        invariant Holds(p, session.S()) && SentFor(p, a, s, session.S())
        invariant session.S().resumes == s.resumes + Resumption(p, a, d) && old(session.approvals) <= session.approvals
      {
        RunSomeCall(session, p, a, s, origin);
        rounds := rounds - 1;
      }
    }
  }

  /** One call of the approval, whichever the agent chooses; s is the state the agent began in. */
  method RunSomeCall(session: Session, p: Pid, a: Approval, ghost s: State, ghost origin: State)
    requires session.Settled() && Evolves(origin, session.S()) && InHand(a, session.S()) && Holds(p, session.S())
    requires SentFor(p, a, s, session.S()) && Holds(p, s) && a.status.Approved? && a.calls != []
    modifies session
    ensures session.Settled() && Evolves(origin, session.S()) && InHand(a, session.S()) && Holds(p, session.S())
    ensures SentFor(p, a, s, session.S()) && session.S().resumes == old(session.S()).resumes
    ensures old(session.approvals) <= session.approvals
  {
    hide *;
    ghost var before := session.S();
    session.Interfere(p, origin);
    ghost var after := session.S();
    RelyMeans(p, before, after);
    InHandKept(a, before, after);
    var k: int, luck: Luck := *, *;
    var call := a.calls[k % |a.calls|];
    MayRunInHand(p, a, call, after);
    EvolvesReflexive(after);
    var outcome := RunWriteTool(session, p, a, call, luck, after);
    EvolvesTransitive(origin, after, session.S());
    InHandKept(a, after, session.S());
    SentForMore(p, a, call, s, before, after, session.S());
    LockKept(p, a, s, session.S());
  }

  lemma TheResumption(p: Pid, a: Approval, d: Decision)
    ensures Resumption(p, a, d) == [Resume(p, a.id, d)]
  {
  }

  lemma LockKept(p: Pid, a: Approval, s: State, s': State)
    requires SentFor(p, a, s, s') && Holds(p, s)
    ensures Holds(p, s') && s'.lock == s.lock
  {
  }

  /** Others act while p, holding the lock, works for the approval. */
  lemma ResumingKept(p: Pid, a: Approval, s: State, s1: State, s2: State)
    requires Holds(p, s) && SentFor(p, a, s, s1) && InHand(a, s1) && Rely(p, s1, s2)
    ensures SentFor(p, a, s, s2) && InHand(a, s2) && Holds(p, s2) && s2.writes == s1.writes && s2.resumes == s1.resumes
    ensures HasTasksOf(a.id, s1) <==> HasTasksOf(a.id, s2)
  {
    hide Inv;
    HasTasksKept(a.id, s1, s2);
  }

  predicate HasTasksOf(aid: nat, s: State)
  {
    exists t :: t in s.tasks && s.tasks[t].operationId in s.operations
                && s.operations[s.tasks[t].operationId].approvalId == Some(aid)
  }

  lemma HasTasksKept(aid: nat, s: State, s': State)
    requires s'.operations.Keys == s.operations.Keys && s'.tasks.Keys == s.tasks.Keys
    requires OperationsEvolve(s.operations, s'.operations) && TasksEvolve(s.tasks, s'.tasks)
    ensures HasTasksOf(aid, s) <==> HasTasksOf(aid, s')
  {
    assert forall t :: t in s.tasks ==> s'.tasks[t].operationId == s.tasks[t].operationId;
    assert forall i :: i in s.operations ==> s'.operations[i].approvalId == s.operations[i].approvalId;
    if HasTasksOf(aid, s) {
      var t :| t in s.tasks && s.tasks[t].operationId in s.operations
               && s.operations[s.tasks[t].operationId].approvalId == Some(aid);
      assert t in s'.tasks;
    }
    if HasTasksOf(aid, s') {
      var t :| t in s'.tasks && s'.tasks[t].operationId in s'.operations
               && s'.operations[s'.tasks[t].operationId].approvalId == Some(aid);
      assert t in s.tasks;
    }
  }

  /** `find_all_by_approval`, reduced to the ids. */
  method OperationIdsOf(session: Session, aid: nat) returns (ids: set<nat>)
    ensures forall i :: i in ids <==> i in session.S().operations && session.S().operations[i].approvalId == Some(aid)
  {
    var all := session.LoadOperations();
    ids := set o | o in all && o.approvalId == Some(aid) :: OperationId(o);
    ghost var m := session.S().operations;
    forall i ensures i in ids <==> i in m && m[i].approvalId == Some(aid) {
      if i in m {
        assert m[i] in all && OperationId(m[i]) == i;
      }
    }
  }

  /** `_find_tasks_for_operations`: whether there is any. */
  method AnyTaskFor(session: Session, ids: set<nat>) returns (r: bool)
    ensures r <==> exists t :: t in session.S().tasks && session.S().tasks[t].operationId in ids
  {
    var all := session.LoadTasks();
    r := exists t :: t in all && t.operationId in ids;
    if r {
      ghost var t :| t in all && t.operationId in ids;
      assert session.S().tasks[TaskId(t)] == t;
    } else {
      assert forall i :: i in session.S().tasks ==> session.S().tasks[i] in all;
    }
  }

  lemma WroteBack(p: Pid, a: Approval, b: Approval, s: State, s1: State, s2: State)
    requires Holds(p, s) && SentFor(p, a, s, s1) && b == a.(resume := b.resume, creationNotice := b.creationNotice)
    requires InHand(a, s1) && s2 == s1.(approvals := s1.approvals[b.id := b])
    ensures SentFor(p, a, s, s2) && InHand(a, s2) && Holds(p, s2)
    ensures HasTasksOf(a.id, s1) <==> HasTasksOf(a.id, s2)
  {
    assert HasTasksOf(a.id, s1) <==> HasTasksOf(a.id, s2) by { HasTasksSame(a.id, s1, s2); }
  }

  lemma HasTasksSame(aid: nat, s: State, s': State)
    requires s'.operations == s.operations && s'.tasks == s.tasks
    ensures HasTasksOf(aid, s) <==> HasTasksOf(aid, s')
  {
  }

  lemma IdsGiveTasks(aid: nat, ids: set<nat>, s: State)
    requires forall i :: i in ids <==> i in s.operations && s.operations[i].approvalId == Some(aid)
    ensures (exists t :: t in s.tasks && s.tasks[t].operationId in ids) <==> HasTasksOf(aid, s)
  {
  }

  /** `_emit_task_creation_notice_if_needed`, after the tasks of the approval have been looked up. */
  method NoticeCreation(session: Session, p: Pid, a: Approval, d: Decision, ghost origin: State)
    returns (b: Approval)
    requires session.Settled() && Evolves(origin, session.S()) && InHand(a, session.S())
    modifies session
    ensures session.Settled() && Evolves(origin, session.S())
    ensures b == a.(creationNotice := b.creationNotice)
    ensures b.creationNotice <==> a.creationNotice || (d == Approve && HasTasksOf(a.id, old(session.S())))
    ensures InHand(b, session.S()) && old(session.approvals) <= session.approvals
    ensures session.S() == if b == a then old(session.S())
                           else old(session.S()).(approvals := old(session.S()).approvals[b.id := b])
  {
    hide Inv, Evolves, InHand, HasTasksOf;
    var ids := OperationIdsOf(session, a.id);
    var any := AnyTaskFor(session, ids);
    IdsGiveTasks(a.id, ids, session.S());
    if d == Reject || !any || a.creationNotice {
      return a;
    }
    b := WriteBack(session, p, a, a.resume, true, origin);
  }

  lemma CopyInHand(a: Approval, b: Approval, s: State)
    requires InHand(a, s) && b == a.(resume := b.resume, creationNotice := b.creationNotice)
    ensures InHand(b, s)
  {
  }

  /** p holds the lock and works for the approval, of which it has a copy; s is the state it began in. */
  predicate Resuming(p: Pid, a: Approval, s: State, s': State)
  {
    Holds(p, s) && SentFor(p, a, s, s') && InHand(a, s')
  }

  lemma ResumingMeans(p: Pid, a: Approval, s: State, s': State)
    requires Resuming(p, a, s, s')
    ensures Holds(p, s') && SentFor(p, a, s, s') && InHand(a, s')
  {
  }

  /** Lets the other processes run. */
  method Pause(session: Session, p: Pid, a: Approval, ghost s: State, ghost origin: State)
    requires session.Settled() && Evolves(origin, session.S()) && Resuming(p, a, s, session.S())
    modifies session
    ensures session.Settled() && Evolves(origin, session.S()) && Resuming(p, a, s, session.S())
    ensures session.S().writes == old(session.S()).writes && old(session.approvals) <= session.approvals
    ensures session.S().resumes == old(session.S()).resumes && old(session.S()).now <= session.S().now
  {
    hide Inv, Evolves, Rely, InHand, SentFor, HasTasksOf;
    ghost var s1 := session.S();
    session.Interfere(p, origin);
    ResumingKept(p, a, s, s1, session.S());
    RelyTime(p, s1, session.S());
  }

  lemma RelyTime(p: Pid, s: State, s': State)
    requires Rely(p, s, s')
    ensures s.now <= s'.now
  {
    hide Inv;
  }

  /** Writes the copy in hand back while resuming. */
  method NoteOutcome(session: Session, p: Pid, a: Approval, resume: ResumeInfo, ghost s: State, ghost origin: State)
    returns (b: Approval)
    requires session.Settled() && Evolves(origin, session.S()) && Resuming(p, a, s, session.S())
    modifies session
    ensures old(session.approvals) <= session.approvals
    ensures session.Settled() && Evolves(origin, session.S()) && Resuming(p, a, s, session.S())
    ensures b == a.(resume := resume) && b.id in session.S().approvals && session.S().approvals[b.id] == b
    ensures session.S().writes == old(session.S()).writes && session.S().resumes == old(session.S()).resumes
    ensures session.S().now == old(session.S()).now
  {
    hide Inv, Evolves, InHand, SentFor, HasTasksOf;
    ghost var s1 := session.S();
    b := WriteBack(session, p, a, resume, a.creationNotice, origin);
    WroteBack(p, a, b, s, s1, session.S());
  }

  /** The last part of `_resume_decided`, from the lookup of tasks on. */
  method NoteTasks(session: Session, p: Pid, a: Approval, cleared: Approval, d: Decision, ghost s: State,
                   ghost origin: State)
    returns (b: Approval)
    requires session.Settled() && Evolves(origin, session.S()) && Resuming(p, a, s, session.S())
    requires cleared == a.(resume := cleared.resume) && !cleared.resume.failed && cleared.resume.error.None?
    modifies session
    ensures session.Settled() && Evolves(origin, session.S()) && Resuming(p, a, s, session.S())
    ensures ResumeNoted(a, b, d, session.S()) && b.resume == cleared.resume
    ensures session.S().writes == old(session.S()).writes && old(session.approvals) <= session.approvals
    ensures session.S().resumes == old(session.S()).resumes && session.S().now == old(session.S()).now
  {
    hide Inv, Evolves, InHand, SentFor, HasTasksOf;
    ghost var s1 := session.S();
    CopyInHand(a, cleared, s1);
    b := NoticeCreation(session, p, cleared, d, origin);
    if b != cleared {
      WroteBack(p, a, b, s, s1, session.S());
    }
  }

  /** `_resume_decided` up to the next approval: resumes the agent on the copy in hand and records how it
      went. The copy may be stale; only its resume fields and notice flag are ever written anew. */
  method ResumeAndRecord(session: Session, p: Pid, a: Approval, d: Decision, reply: AgentReply, ghost origin: State)
    returns (r: ResumeOutcome)
    requires session.Settled() && Evolves(origin, session.S()) && Holds(p, session.S()) && InHand(a, session.S())
    requires d == Approve ==> a.status.Approved?
    modifies session
    ensures old(session.approvals) <= session.approvals
    ensures session.Settled() && Evolves(origin, session.S()) && InHand(a, session.S())
    ensures SentFor(p, a, old(session.S()), session.S())
    ensures d == Reject ==> session.S().writes == old(session.S()).writes
    ensures session.S().resumes == old(session.S()).resumes + Resumption(p, a, d)
    ensures old(session.S()).now <= session.S().now
    ensures !r.NextFailed? && (r.Resumed? ==> r.next.None?) && (r.ResumeFailed? <==> reply.AgentRaised?)
    ensures r.ResumeFailed? ==> FailedWith(a, reply.error, session.S())
    ensures r.Resumed? ==> ResumeNoted(a, r.approval, d, session.S())
    ensures r.Resumed? && a.resume.failed ==> a.(resume := r.approval.resume) in session.approvals
  {
    hide Inv, Evolves, InHand, SentFor, ResumeNoted, Resumption;
    ghost var s := session.S();
    EvolvesReflexive(s);
    ResumeAgent(session, p, a, d, s);
    EvolvesTransitive(origin, s, session.S());
    TimeGrows(s, session.S());
    assert Resuming(p, a, s, session.S());
    hide Resuming;
    Pause(session, p, a, s, origin);
    if reply.AgentRaised? {
      var failed := NoteOutcome(session, p, a, ResumeInfo(true, Some(reply.error), Some(session.now)), s, origin);
      ResumingMeans(p, a, s, session.S());
      return ResumeFailed;
    }
    var cleared := a.(resume := ResumeInfo(false, None, Some(session.now)));
    if a.resume.failed {
      cleared := NoteOutcome(session, p, a, cleared.resume, s, origin);
    }
    Pause(session, p, a, s, origin);
    var b := NoteTasks(session, p, a, cleared, d, s, origin);
    ResumingMeans(p, a, s, session.S());
    return Resumed(b, None);
  }

  lemma TimeGrows(s: State, s': State)
    requires Evolves(s, s')
    ensures s.now <= s'.now && s.resumes <= s'.resumes
  {
  }

  /** The failure stands in the log, with what went wrong and when, and nothing else of the copy has changed. */
  predicate FailedWith(a: Approval, error: string, s: State)
  {
    a.id in s.approvals && s.approvals[a.id] == a.(resume := ResumeInfo(true, Some(error), Some(s.now)))
  }

  /** The record returned is a version of the decided one, no longer marked as failed, and flagged as
      announced exactly if it was before or the approval now has tasks. */
  predicate ResumeNoted(a: Approval, b: Approval, d: Decision, s: State)
  {
    && InHand(b, s) && b.id == a.id && !b.resume.failed && b.resume.error.None?
    && (b.creationNotice <==> a.creationNotice || (d == Approve && HasTasksOf(a.id, s)))
    && (b.creationNotice && !a.creationNotice ==> s.approvals[b.id] == b)
  }

  /** Another approval is asked for, and this call may ask for one. */
  predicate AsksForNext(reply: AgentReply, allowNext: bool) { reply.Replied? && reply.request.Some? && allowNext }

  /** What resuming comes to follows from the agent's reply and from whether another approval may be made. */
  predicate OutcomeFollows(r: ResumeOutcome, reply: AgentReply, allowNext: bool, user: Identity, s: State, s': State)
  {
    && (r.ResumeFailed? <==> reply.AgentRaised?)
    && (r.NextFailed? <==> AsksForNext(reply, allowNext) && !(NoPending(s) && WellFormed(reply.request.value, user)))
    && (r.Resumed? ==> (r.next.Some? <==> AsksForNext(reply, allowNext)))
    && (r.Resumed? && r.next.Some? ==> Requested(r.next.value, reply.request.value, s.now, s'.now))
  }

  /** `_resume_decided`. */
  method ResumeDecided(session: Session, p: Pid, user: Identity, a: Approval, d: Decision, allowNext: bool,
                       reply: AgentReply, ghost origin: State)
    returns (r: ResumeOutcome)
    requires session.Settled() && Evolves(origin, session.S()) && Holds(p, session.S()) && InHand(a, session.S())
    requires d == Approve ==> a.status.Approved?
    modifies session
    ensures old(session.approvals) <= session.approvals
    ensures session.Settled() && Evolves(origin, session.S()) && InHand(a, session.S())
    ensures session.S().lock == old(session.S()).lock && old(session.S()).writes <= session.S().writes
    ensures session.S().resumes == old(session.S()).resumes + Resumption(p, a, d)
    ensures OutcomeFollows(r, reply, allowNext, user, old(session.S()), session.S())
    ensures Served(p, a, d, old(session.S()), session.S())
    ensures d == Reject ==> session.S().writes == old(session.S()).writes
    ensures !allowNext ==> WaitingKept(old(session.S()).approvals, session.S().approvals)
                           && (r.Resumed? ==> r.next.None?) && !r.NextFailed?
    ensures r.ResumeFailed? ==> FailedWith(a, reply.error, session.S())
    ensures r.Resumed? ==> r.approval.id == a.id && !r.approval.resume.failed && InHand(r.approval, session.S())
    ensures r.Resumed? && d == Approve && HasTasksOf(a.id, session.S()) ==> r.approval.creationNotice
    ensures r.Resumed? && a.resume.failed ==> a.(resume := r.approval.resume) in session.approvals
    ensures r.Resumed? && r.next.Some? ==> NextPending(r.next.value, old(session.S()), session.S())
  {
    hide *;
    ghost var s := session.S();
    EvolvesReflexive(s);
    r := ResumeAndRecord(session, p, a, d, reply, s);
    EvolvesTransitive(origin, s, session.S());
    SentMeans(p, a, d, s, session.S());
    NotedMeans(a, r, d, session.S());
    if r.ResumeFailed? || reply.request.None? || !allowNext {
      NoNextAsked(r, reply, allowNext, user, s, session.S());
      return;
    }
    NextAsked(reply, allowNext);
    ghost var s1 := session.S();
    session.Interfere(p, s);
    ResumingKept(p, a, s, s1, session.S());
    RelyMeans(p, s1, session.S());
    RelyTime(p, s1, session.S());
    InHandKept(r.approval, s1, session.S());
    WaitingUnder(p, s1, session.S());
    WaitingTransitive(s.approvals, s1.approvals, session.S().approvals);
    s1 := session.S();
    EvolvesReflexive(s1);
    var next := CreateApproval(session, p, user, reply.request.value, s1);
    EvolvesTransitive(origin, s, s1);
    EvolvesTransitive(origin, s1, session.S());
    InHandKept(a, s1, session.S());
    InHandKept(r.approval, s1, session.S());
    SentMeans(p, a, d, s, s1);
    ServedSame(p, a, d, s, s1, session.S());
    TasksSeen(a.id, s1, session.S());
    NonePendingKept(s, s1);
    if next.None? {
      NextAskedFor(NextFailed, None, reply, allowNext, user, s, s1.now, session.S());
      return NextFailed;
    }
    NextIsPending(next.value, reply.request.value, s, s1, session.S());
    NextAskedFor(Resumed(r.approval, next), next, reply, allowNext, user, s, s1.now, session.S());
    r := Resumed(r.approval, next);
  }

  lemma NextAsked(reply: AgentReply, allowNext: bool)
    requires reply.Replied? && reply.request.Some? && allowNext
    ensures AsksForNext(reply, allowNext)
  {
  }

  lemma NoNextAsked(r: ResumeOutcome, reply: AgentReply, allowNext: bool, user: Identity, s: State, s': State)
    requires !r.NextFailed? && (r.ResumeFailed? <==> reply.AgentRaised?) && (r.Resumed? ==> r.next.None?)
    requires reply.AgentRaised? || reply.request.None? || !allowNext
    ensures OutcomeFollows(r, reply, allowNext, user, s, s')
  {
  }

  lemma NextAskedFor(r: ResumeOutcome, next: Option<Approval>, reply: AgentReply, allowNext: bool, user: Identity,
                     s: State, from: Time, s': State)
    requires reply.Replied? && reply.request.Some? && allowNext && s.now <= from
    requires next.Some? <==> NoPending(s) && WellFormed(reply.request.value, user)
    requires if next.Some? then r.Resumed? && r.next == next else r.NextFailed?
    requires next.Some? ==> Requested(next.value, reply.request.value, from, s'.now)
    ensures OutcomeFollows(r, reply, allowNext, user, s, s')
  {
  }

  lemma NonePendingKept(s: State, s': State)
    requires WaitingKept(s.approvals, s'.approvals) && Evolves(s, s')
    ensures NoPending(s) <==> NoPending(s')
  {
    assert forall i :: i in s.approvals && s.approvals[i].status.Pending? ==> s'.approvals[i] == s.approvals[i];
  }

  lemma TasksSeen(aid: nat, s: State, s': State)
    requires Evolves(s, s') && s'.operations.Keys == s.operations.Keys && s'.tasks.Keys == s.tasks.Keys
    ensures HasTasksOf(aid, s) <==> HasTasksOf(aid, s')
  {
    HasTasksKept(aid, s, s');
  }

  /** What resuming sends: write requests of p for calls of the approval. */
  predicate Served(p: Pid, a: Approval, d: Decision, s: State, s': State)
  {
    && |s.writes| <= |s'.writes|
    && forall k :: |s.writes| <= k < |s'.writes| ==>
                     s'.writes[k].call in a.calls && s'.writes[k].writer == p && d == Approve
  }

  /** The next approval waits for an answer, and is the only one. */
  predicate NextPending(next: Approval, s: State, s': State)
  {
    && next.status.Pending? && next.id !in s.approvals && NoPending(s)
    && next.id in s'.approvals && s'.approvals[next.id] == next
  }

  lemma SentMeans(p: Pid, a: Approval, d: Decision, s: State, s': State)
    requires SentFor(p, a, s, s') && (d == Reject ==> s'.writes == s.writes)
    ensures s'.lock == s.lock && s.writes <= s'.writes && WaitingKept(s.approvals, s'.approvals)
            && Served(p, a, d, s, s')
  {
  }

  lemma ServedSame(p: Pid, a: Approval, d: Decision, s: State, s1: State, s2: State)
    requires Served(p, a, d, s, s1) && s2.writes == s1.writes
    ensures Served(p, a, d, s, s2)
  {
  }

  lemma NotedMeans(a: Approval, r: ResumeOutcome, d: Decision, s: State)
    requires r.Resumed? ==> ResumeNoted(a, r.approval, d, s)
    ensures r.Resumed? ==> r.approval.id == a.id && !r.approval.resume.failed && InHand(r.approval, s)
    ensures r.Resumed? && d == Approve && HasTasksOf(a.id, s) ==> r.approval.creationNotice
  {
  }

  lemma WaitingUnder(p: Pid, s: State, s': State)
    requires Holds(p, s) && Rely(p, s, s')
    ensures WaitingKept(s.approvals, s'.approvals) && s'.lock == s.lock && s'.writes == s.writes
  {
    hide Inv;
  }

  lemma WaitingTransitive(m: map<nat, Approval>, m1: map<nat, Approval>, m2: map<nat, Approval>)
    requires WaitingKept(m, m1) && WaitingKept(m1, m2)
    ensures WaitingKept(m, m2)
  {
  }

  lemma NextIsPending(next: Approval, i: Interrupt, s: State, s1: State, s2: State)
    requires WaitingKept(s.approvals, s1.approvals) && NoPending(s1) && Requested(next, i, s1.now, s2.now)
    requires next.id !in s1.approvals && next.id in s2.approvals
             && s2.approvals[next.id] == next
    ensures NextPending(next, s, s2)
  {
    assert forall i :: i in s.approvals && s.approvals[i].status.Pending? ==> s1.approvals[i].status.Pending?;
  }
}
