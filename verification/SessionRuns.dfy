/** Whole runs of the protocol: any processes, any interleaving, server restarts at any point. */
module SessionRuns {
  import opened Wrappers
  import opened SessionRecords
  import opened SessionProtocol

  /** A step of one process, or a restart of the server, which keeps the logs and loses the run lock. */
  datatype Event = By(p: Pid, step: Step) | Restart

  predicate Possible(s: State, e: Event) { e.By? ==> Enabled(e.p, s, e.step) }

  function After(s: State, e: Event): State
    requires Possible(s, e)
  {
    match e
    case By(p, step) => Apply(p, s, step)
    case Restart => s.(lock := None)
  }

  const EMPTY := State(map[], map[], map[], None, 0, [], map[], [], [], [])

  predicate IsRun(ss: seq<State>, es: seq<Event>)
  {
    && |ss| == |es| + 1 && ss[0] == EMPTY
    && forall i :: 0 <= i < |es| ==> Possible(ss[i], es[i]) && ss[i + 1] == After(ss[i], es[i])
  }

  lemma {:induction false} InvAt(ss: seq<State>, es: seq<Event>, i: nat)
    requires IsRun(ss, es) && i < |ss|
    ensures Inv(ss[i])
  {
    if i == 0 {
    } else {
      InvAt(ss, es, i - 1);
      if es[i - 1].By? {
        StepKeepsInv(es[i - 1].p, ss[i - 1], es[i - 1].step);
      } else {
        RestartKeepsInv(ss[i - 1]);
      }
    }
  }

  lemma RestartKeepsInv(s: State)
    requires Inv(s)
    ensures Inv(s.(lock := None)) && Evolves(s, s.(lock := None))
  {
    hide Consented, RequestsOk, TaskOk, TasksApart, ToolCallIdsDistinct, ApprovalsEvolve, OperationsEvolve, TasksEvolve;
    var s' := s.(lock := None);
    RestartEvolves(s);
    forall i | i in s.operations ensures Consented(s'.operations[i], s') {
      ConsentKept(s.operations[i], s'.operations[i], s, s');
    }
    RequestsKept(s.tries, s, s');
    RequestsKept(s.writes, s, s');
  }

  lemma RestartEvolves(s: State)
    ensures Evolves(s, s.(lock := None))
  {
    EvolvesReflexive(s);
  }

  lemma {:induction false} EvolvesBetween(ss: seq<State>, es: seq<Event>, i: nat, j: nat)
    requires IsRun(ss, es) && i <= j < |ss|
    ensures Evolves(ss[i], ss[j])
    decreases j
  {
    if i == j {
    } else {
      EvolvesBetween(ss, es, i, j - 1);
      InvAt(ss, es, j - 1);
      if es[j - 1].By? {
        StepKeepsInv(es[j - 1].p, ss[j - 1], es[j - 1].step);
      } else {
        RestartKeepsInv(ss[j - 1]);
      }
      EvolvesTransitive(ss[i], ss[j - 1], ss[j]);
    }
  }

  /** Once a decision is recorded, who decided, what, and when never change. */
  lemma TerminalDecisionsAbsorb(ss: seq<State>, es: seq<Event>, i: nat, j: nat, aid: nat)
    requires IsRun(ss, es) && i <= j < |ss|
    requires aid in ss[i].approvals && !ss[i].approvals[aid].status.Pending?
    ensures aid in ss[j].approvals
    ensures var a, b := ss[i].approvals[aid], ss[j].approvals[aid];
            b.status == a.status && b.decidedBy == a.decidedBy && b.decidedAt == a.decidedAt
                && b.expiredAt == a.expiredAt
  {
    EvolvesBetween(ss, es, i, j);
  }

  /** At most one approval waits for an answer. */
  lemma AtMostOnePending(ss: seq<State>, es: seq<Event>, i: nat, a: nat, b: nat)
    requires IsRun(ss, es) && i < |ss|
    requires a in ss[i].approvals && ss[i].approvals[a].status.Pending?
    requires b in ss[i].approvals && ss[i].approvals[b].status.Pending?
    ensures a == b
  {
    InvAt(ss, es, i);
  }

  lemma OnlyHoldersMoveApprovals(p: Pid, s: State, step: Step, aid: nat)
    requires ApprovalsOk(s) && Enabled(p, s, step) && aid in Apply(p, s, step).approvals
    requires aid !in s.approvals || (s.approvals[aid].status.Pending?
                                     && !Apply(p, s, step).approvals[aid].status.Pending?)
    ensures Holds(p, s)
  {
  }

  /** Approvals appear, and stop waiting, only by a step of the process that holds the run lock. */
  lemma OnlyTheLockHolderMovesApprovals(ss: seq<State>, es: seq<Event>, i: nat, aid: nat)
    requires IsRun(ss, es) && i < |es| && aid in ss[i + 1].approvals
    requires aid !in ss[i].approvals
             || (ss[i].approvals[aid].status.Pending? && !ss[i + 1].approvals[aid].status.Pending?)
    ensures es[i].By? && Holds(es[i].p, ss[i])
  {
    InvAt(ss, es, i);
    assert Possible(ss[i], es[i]) && ss[i + 1] == After(ss[i], es[i]);
    if es[i].By? {
      hide Enabled, Apply;
      OnlyHoldersMoveApprovals(es[i].p, ss[i], es[i].step, aid);
    }
  }

  /** A protected tool call stands behind one operation at most, and is sent to the server once at most,
      whether or not it arrives. */
  lemma AtMostOnce(ss: seq<State>, es: seq<Event>, i: nat, toolCallId: string, v: nat, w: nat, o: nat, q: nat)
    requires IsRun(ss, es) && i < |ss|
    ensures var tries := ss[i].tries;
            v < |tries| && w < |tries| && tries[v].toolCallId == tries[w].toolCallId == Some(toolCallId) ==> v == w
    ensures var writes := ss[i].writes;
            v < |writes| && w < |writes| && writes[v].toolCallId == writes[w].toolCallId == Some(toolCallId) ==> v == w
    ensures var m := ss[i].operations;
            o in m && q in m && m[o].toolCallId == m[q].toolCallId == Some(toolCallId) ==> o == q
    ensures forall write :: write in ss[i].writes ==> write in ss[i].tries
  {
    InvAt(ss, es, i);
    if v < |ss[i].tries| && w < |ss[i].tries| {
      assert WriteOk(ss[i].tries[v], ss[i]) && WriteOk(ss[i].tries[w], ss[i]);
    }
    if v < |ss[i].writes| && w < |ss[i].writes| {
      assert WriteOk(ss[i].writes[v], ss[i]) && WriteOk(ss[i].writes[w], ss[i]);
    }
  }

  /** The agent is set to work again only on decided approvals, and with approval only on approved ones. */
  lemma ResumedAsDecided(ss: seq<State>, es: seq<Event>, i: nat, r: Resume)
    requires IsRun(ss, es) && i < |ss| && r in ss[i].resumes
    ensures r.aid in ss[i].approvals && !ss[i].approvals[r.aid].status.Pending?
    ensures r.decision == Approve ==> ss[i].approvals[r.aid].status.Approved?
  {
    InvAt(ss, es, i);
  }

  predicate IsDecided(a: Approval) { a.status.Approved? || a.status.Rejected? }

  /** Event k of the run decides the approval: the process that holds the run lock does it, and since it took
      the lock it has looked at the expiry and found that there was time left. */
  predicate DecidesAt(ss: seq<State>, es: seq<Event>, k: nat, aid: nat, d: Decision)
    requires |ss| == |es| + 1
  {
    && k < |es| && es[k].By? && es[k].step.ApprovalDecided? && es[k].step.aid == aid && es[k].step.decision == d
    && Holds(es[k].p, ss[k]) && aid in ss[k].approvals && ss[k].approvals[aid].status.Pending?
    && ss[k].lock.value.since <= es[k].step.checkedAt <= ss[k].now
    && !IsExpired(ss[k].approvals[aid], es[k].step.checkedAt)
  }

  lemma OnlyDecisionDecides(p: Pid, s: State, step: Step, aid: nat)
    requires ApprovalsOk(s) && Enabled(p, s, step)
    requires aid in Apply(p, s, step).approvals && IsDecided(Apply(p, s, step).approvals[aid])
    requires aid !in s.approvals || !IsDecided(s.approvals[aid])
    ensures step.ApprovalDecided? && step.aid == aid
    ensures var b := Apply(p, s, step).approvals[aid];
            b.status == StatusOf(step.decision) && b.decidedBy == Some(step.user) && b.decidedAt == Some(s.now)
  {
    ApprovalsEvolveStep(p, s, step);
  }

  /** Every decision in the log was made by such an event, which left its user and its time. */
  lemma {:induction false} DecisionMade(ss: seq<State>, es: seq<Event>, i: nat, aid: nat) returns (k: nat)
    requires IsRun(ss, es) && i < |ss| && aid in ss[i].approvals && IsDecided(ss[i].approvals[aid])
    ensures k < i && k < |es| && es[k].By? && es[k].step.ApprovalDecided?
    ensures DecidesAt(ss, es, k, aid, es[k].step.decision)
    ensures var a := ss[i].approvals[aid];
            && a.status == StatusOf(es[k].step.decision)
            && a.decidedBy == Some(es[k].step.user) && a.decidedAt == Some(ss[k].now)
  {
    hide Apply, Enabled;
    InvAt(ss, es, i - 1);
    assert Possible(ss[i - 1], es[i - 1]) && ss[i] == After(ss[i - 1], es[i - 1]);
    if aid in ss[i - 1].approvals && IsDecided(ss[i - 1].approvals[aid]) {
      k := DecisionMade(ss, es, i - 1, aid);
      EvolvesBetween(ss, es, i - 1, i);
    } else {
      k := i - 1;
      OnlyDecisionDecides(es[k].p, ss[k], es[k].step, aid);
      DecisionEnabled(es[k].p, ss[k], es[k].step);
    }
  }

  lemma DecisionEnabled(p: Pid, s: State, step: Step)
    requires step.ApprovalDecided? && Enabled(p, s, step)
    ensures Holds(p, s) && step.aid in s.approvals && s.approvals[step.aid].status.Pending?
    ensures s.lock.value.since <= step.checkedAt <= s.now && !IsExpired(s.approvals[step.aid], step.checkedAt)
  {
  }

  /** A write request that is sent, whether or not it arrives, asks for a call listed in an approval that a user
      approved, and it is sent after that decision, which the holder of the run lock took with time left. */
  lemma WritesOnlyUnderConsent(ss: seq<State>, es: seq<Event>, i: nat, w: nat)
    requires IsRun(ss, es) && i < |ss| && w < |ss[i].tries|
    ensures var s, write := ss[i], ss[i].tries[w];
            && write.operationId in s.operations && s.operations[write.operationId].approvalId.Some?
            && var aid := s.operations[write.operationId].approvalId.value;
               && aid in s.approvals && s.approvals[aid].status.Approved? && write.call in s.approvals[aid].calls
               && exists k :: 0 <= k < i && DecidesAt(ss, es, k, aid, Approve) && |ss[k].tries| <= w
  {
    hide Apply, Enabled, Possible, After;
    InvAt(ss, es, i);
    var oid := ss[i].tries[w].operationId;
    assert WriteOk(ss[i].tries[w], ss[i]);
    assert Consented(ss[i].operations[oid], ss[i]);
    var aid := ss[i].operations[oid].approvalId.value;
    var k := DecisionMade(ss, es, i, aid);
    if w < |ss[k].tries| {
      InvAt(ss, es, k);
      WrittenWhenApproved(ss[k], w);
      EvolvesBetween(ss, es, k, i);
      assert false;
    }
    assert DecidesAt(ss, es, k, aid, Approve) && |ss[k].tries| <= w;
  }

  lemma WrittenWhenApproved(s: State, w: nat)
    requires Inv(s) && w < |s.tries|
    ensures s.tries[w].operationId in s.operations && s.operations[s.tries[w].operationId].approvalId.Some?
    ensures var aid := s.operations[s.tries[w].operationId].approvalId.value;
            aid in s.approvals && s.approvals[aid].status.Approved?
  {
    assert WriteOk(s.tries[w], s);
    assert Consented(s.operations[s.tries[w].operationId], s);
  }

  /** Every operation, and through it every task, belongs to an approved approval ... */
  lemma TasksOnlyUnderConsent(ss: seq<State>, es: seq<Event>, i: nat, tid: nat)
    requires IsRun(ss, es) && i < |ss| && tid in ss[i].tasks
    ensures ss[i].tasks[tid].operationId in ss[i].operations
            && Consented(ss[i].operations[ss[i].tasks[tid].operationId], ss[i])
  {
    InvAt(ss, es, i);
    assert TaskOk(ss[i].tasks[tid], ss[i].operations);
  }

  /** ... so an approval that was rejected or has expired neither has nor ever acquires an operation. */
  lemma RefusedApprovalsAcquireNothing(ss: seq<State>, es: seq<Event>, i: nat, j: nat, aid: nat, o: nat)
    requires IsRun(ss, es) && i < |ss| && j < |ss|
    requires aid in ss[i].approvals && (ss[i].approvals[aid].status.Rejected? || ss[i].approvals[aid].status.Expired?)
    requires o in ss[j].operations
    ensures ss[j].operations[o].approvalId != Some(aid)
  {
    InvAt(ss, es, j);
    assert Consented(ss[j].operations[o], ss[j]);
    EvolvesBetween(ss, es, if i <= j then i else j, if i <= j then j else i);
  }

  /** Finished tasks stay finished whatever the server answers later, and a conflict key has one
      unfinished task at most. */
  lemma ConflictFreedom(ss: seq<State>, es: seq<Event>, i: nat, j: nat, t: nat, u: nat)
    requires IsRun(ss, es) && i <= j < |ss| && t in ss[i].tasks && u in ss[i].tasks
    ensures Terminal(ss[i].tasks[t]) ==> t in ss[j].tasks && ss[j].tasks[t].view == ss[i].tasks[t].view
    ensures var m := ss[i].tasks;
            (!Terminal(m[t]) && !Terminal(m[u]) && m[t].conflictKey == m[u].conflictKey) ==> t == u
  {
    InvAt(ss, es, i);
    EvolvesBetween(ss, es, i, j);
  }

  lemma TaskOperationAgreement(ss: seq<State>, es: seq<Event>, i: nat, t: nat)
    requires IsRun(ss, es) && i < |ss| && t in ss[i].tasks && Terminal(ss[i].tasks[t])
    ensures ss[i].tasks[t].operationId in ss[i].operations
    ensures var o := ss[i].operations[ss[i].tasks[t].operationId];
            && o.result.Some? && o.result.value.status == o.status
            && match ss[i].tasks[t].view.status {
                 case TaskSucceeded => o.status.Succeeded?
                 case TaskFailed => o.status.Failed?
                 case TaskCanceled => o.status.Canceled?
                 case _ => false
               }
  {
    InvAt(ss, es, i);
    assert TaskOk(ss[i].tasks[t], ss[i].operations);
  }

  predicate NoticeFlips(ss: seq<State>, i: nat, t: nat)
    requires i + 1 < |ss|
  {
    t in ss[i + 1].tasks && ss[i + 1].tasks[t].noticeEmitted && (t in ss[i].tasks ==> !ss[i].tasks[t].noticeEmitted)
  }

  lemma OnlyMarkNoticeFlips(p: Pid, s: State, step: Step, t: nat)
    requires TasksOk(s) && Enabled(p, s, step)
    requires t in Apply(p, s, step).tasks && Apply(p, s, step).tasks[t].noticeEmitted
    requires t in s.tasks ==> !s.tasks[t].noticeEmitted
    ensures step == NoticeMarked(t)
  {
  }

  /** A task is announced once: its flag flips at one step of the run at most, made by the holder of the
      run lock at a moment when every task of its group has finished. */
  lemma NoticeFlipsOnce(ss: seq<State>, es: seq<Event>, i: nat, j: nat, t: nat)
    requires IsRun(ss, es) && i <= j < |es| && NoticeFlips(ss, i, t) && NoticeFlips(ss, j, t)
    ensures i == j
    ensures es[i].By? && Holds(es[i].p, ss[i]) && t in ss[i].tasks && GroupTerminal(ss[i].tasks[t], ss[i])
  {
    if i < j {
      EvolvesBetween(ss, es, i + 1, j);
    }
    InvAt(ss, es, i);
    assert Possible(ss[i], es[i]) && ss[i + 1] == After(ss[i], es[i]);
    if es[i].By? {
      OnlyMarkNoticeFlips(es[i].p, ss[i], es[i].step, t);
    }
  }

  /** The tasks flagged as announced are exactly those that some process has marked, each of them once. */
  lemma MarkedOnce(ss: seq<State>, es: seq<Event>, i: nat, t: nat)
    requires IsRun(ss, es) && i < |ss| && t in ss[i].tasks
    ensures ss[i].tasks[t].noticeEmitted <==> exists k :: 0 <= k < |ss[i].marks| && ss[i].marks[k].tid == t
    ensures forall j, k :: 0 <= j < k < |ss[i].marks| ==> ss[i].marks[j].tid != ss[i].marks[k].tid
  {
    InvAt(ss, es, i);
    assert ss[i].tasks[t].noticeEmitted ==> IsMarked(t, ss[i].marks);
  }

  // ---------------------------------------------------------------- the stamp of a decision

  predicate CreatedIn(es: seq<Event>, a: Approval) { exists i :: 0 <= i < |es| && Creates(es[i], a) }

  predicate Creates(e: Event, a: Approval) { e.By? && e.step == ApprovalCreated(a) }

  /** A run that creates the approval and ends with a decision of it whose time lies past its expiry. */
  predicate StampedLate(ss: seq<State>, es: seq<Event>, a: Approval)
  {
    && IsRun(ss, es) && CreatedIn(es, a) && a.id in ss[|es|].approvals
    && var b := ss[|es|].approvals[a.id]; IsDecided(b) && b.decidedAt.Some? && IsExpired(b, b.decidedAt.value)
  }

  lemma LockedNow(p: Pid, s: State, step: Step)
    requires Enabled(p, s, step)
    ensures var s' := Apply(p, s, step);
            s.now <= s'.now && (s'.lock == s.lock || s'.lock.None? || s'.lock.value.since == s.now)
  {
  }

  /** No time before the start of the run plays a part in it. */
  lemma {:induction false} LockedSinceStart(ss: seq<State>, es: seq<Event>, i: nat)
    requires IsRun(ss, es) && i < |ss|
    ensures ss[i].now >= 0 && (ss[i].lock.Some? ==> ss[i].lock.value.since >= 0)
  {
    if i == 0 {
    } else {
      hide Apply, Enabled;
      LockedSinceStart(ss, es, i - 1);
      assert Possible(ss[i - 1], es[i - 1]) && ss[i] == After(ss[i - 1], es[i - 1]);
      if es[i - 1].By? {
        LockedNow(es[i - 1].p, ss[i - 1], es[i - 1].step);
      }
    }
  }

  /** The stamp is taken after the expiry check, with nothing in between that keeps the clock from running. So
      an approval can carry a decision time past its expiry exactly if it has an expiry and does not arrive
      expired, before the clock of the run begins. */
  lemma DecisionStampMayPassExpiry(a: Approval)
    requires FreshPending(a)
    ensures (exists ss, es :: StampedLate(ss, es, a)) <==> a.expiresAt.Some? && a.expiresAt.value > 0
  {
    forall ss, es | StampedLate(ss, es, a) ensures a.expiresAt.Some? && a.expiresAt.value > 0 {
      StampedLateHadTime(ss, es, a);
    }
    if a.expiresAt.Some? && a.expiresAt.value > 0 {
      var ss, es := LateStamp(a);
    }
  }

  lemma StampedLateHadTime(ss: seq<State>, es: seq<Event>, a: Approval)
    requires StampedLate(ss, es, a)
    ensures a.expiresAt.Some? && a.expiresAt.value > 0
  {
    hide Apply, Enabled;
    var n := |es|;
    var i :| 0 <= i < n && Creates(es[i], a);
    assert Possible(ss[i], es[i]) && ss[i + 1] == After(ss[i], es[i]);
    CreationSeen(es[i].p, ss[i], a);
    EvolvesBetween(ss, es, i + 1, n);
    var k := DecisionMade(ss, es, n, a.id);
    LockedSinceStart(ss, es, k);
    EvolvesBetween(ss, es, k, n);
  }

  lemma CreationSeen(p: Pid, s: State, a: Approval)
    requires Enabled(p, s, ApprovalCreated(a))
    ensures var s' := Apply(p, s, ApprovalCreated(a)); a.id in s'.approvals && s'.approvals[a.id] == a
  {
  }

  /** The clock reaches the expiry between the check, at 0, and the stamp. */
  lemma LateStamp(a: Approval) returns (ss: seq<State>, es: seq<Event>)
    requires FreshPending(a) && a.expiresAt.Some? && a.expiresAt.value > 0
    ensures StampedLate(ss, es, a)
  {
    es := [By(1, LockTaken), By(1, ApprovalCreated(a)), By(1, Ticked(a.expiresAt.value)),
           By(1, ApprovalDecided(a.id, Approve, Identity("u", true), 0))];
    var s1 := After(EMPTY, es[0]);
    var s2 := After(s1, es[1]);
    var s3 := After(s2, es[2]);
    var s4 := After(s3, es[3]);
    ss := [EMPTY, s1, s2, s3, s4];
    assert Creates(es[1], a);
  }

  /** Any number of steps by other processes stays within what p relies on. */
  lemma {:induction false} OthersStayWithinRely(p: Pid, ss: seq<State>, es: seq<Event>)
    requires |ss| == |es| + 1 && Inv(ss[0])
    requires forall i :: 0 <= i < |es| ==>
               es[i].By? && es[i].p != p && Possible(ss[i], es[i]) && ss[i + 1] == After(ss[i], es[i])
    ensures Rely(p, ss[0], ss[|es|])
  {
    if es == [] {
    } else {
      var n := |es| - 1;
      OthersStayWithinRely(p, ss[..n + 1], es[..n]);
      assert ss[..n + 1][n] == ss[n];
      OtherStepIsRely(p, es[n].p, ss[n], es[n].step);
      RelyTransitive(p, ss[0], ss[n], ss[n + 1]);
    }
  }
}
