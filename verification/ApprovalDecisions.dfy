/** Deciding an approval, and clearing away the ones nobody decided in time
    (operations/approval_service.py, the entry points). */
module ApprovalDecisions {
  import opened Wrappers
  import opened AppendLog
  import opened SessionRecords
  import opened SessionProtocol
  import opened SessionStore
  import opened WriteTools
  import opened ApprovalService

  datatype DecideOutcome =
    | NotFound
    | Forbidden
    | TooLate(approval: Approval)
    | RunLocked
    | DecisionConflict
    | TaskConflict
    | ResumeError
    | NextRefused
    | Handled(approval: Approval, next: Option<Approval>)

  // ---------------------------------------------------------------- what a call sends

  /** Every write request p sends in between is for a call of the approval, which is approved. */
  predicate Acted(p: Pid, aid: nat, d: Decision, s: State, s': State)
  {
    && |s.writes| <= |s'.writes|
    && forall k :: |s.writes| <= k < |s'.writes| && s'.writes[k].writer == p ==>
                     d == Approve && aid in s'.approvals && s'.approvals[aid].status.Approved?
                     && s'.writes[k].call in s'.approvals[aid].calls
  }

  lemma ActedThen(p: Pid, aid: nat, d: Decision, s: State, t: State, u: State)
    requires Acted(p, aid, d, s, t) && Acted(p, aid, d, t, u) && Evolves(t, u)
    ensures Acted(p, aid, d, s, u)
  {
    forall k | |s.writes| <= k < |u.writes| && u.writes[k].writer == p
      ensures d == Approve && aid in u.approvals && u.approvals[aid].status.Approved?
              && u.writes[k].call in u.approvals[aid].calls
    {
      if k < |t.writes| {
        assert t.writes[k] == u.writes[k];
      }
    }
  }

  lemma ActedQuietly(p: Pid, aid: nat, d: Decision, s: State, s': State)
    requires Quiet(p, s, s')
    ensures Acted(p, aid, d, s, s')
  {
  }

  lemma QuietSame(p: Pid, s: State, s': State)
    requires s'.writes == s.writes
    ensures Quiet(p, s, s')
  {
  }

  lemma QuietThen(p: Pid, s: State, t: State, u: State)
    requires Quiet(p, s, t) && Quiet(p, t, u)
    ensures Quiet(p, s, u)
  {
  }

  lemma ActedServed(p: Pid, a: Approval, d: Decision, s: State, s': State)
    requires Served(p, a, d, s, s') && InHand(a, s') && (d == Approve ==> a.status.Approved?)
    ensures Acted(p, a.id, d, s, s')
  {
  }

  // ---------------------------------------------------------------- expiry

  /** `_resume_expired_cleanup`: lets the agent see the refusal; a failure is noted, not raised. */
  method ResumeExpiredCleanup(session: Session, p: Pid, user: Identity, a: Approval, agent: nat -> AgentReply,
                              ghost origin: State)
    returns (r: Approval)
    requires session.Settled() && Evolves(origin, session.S()) && Holds(p, session.S())
    requires InHand(a, session.S()) && a.status.Expired?
    modifies session
    ensures old(session.approvals) <= session.approvals
    ensures session.Settled() && Evolves(origin, session.S())
    ensures session.S().lock == old(session.S()).lock && session.S().writes == old(session.S()).writes
    ensures WaitingKept(old(session.S()).approvals, session.S().approvals)
    ensures session.S().resumes == old(session.S()).resumes + Resumption(p, a, Reject)
    ensures r.id == a.id && InHand(r, session.S()) && (r.resume.failed <==> agent(a.id).AgentRaised?)
    ensures agent(a.id).AgentRaised? ==> FailedWith(a, agent(a.id).error, session.S())
  {
    hide Inv, Evolves, InHand, WaitingKept, Served, NoPending, WellFormed, Requested, HasTasksOf;
    var result := ResumeDecided(session, p, user, a, Reject, false, agent(a.id), origin);
    if result.Resumed? {
      return result.approval;
    }
    var latest := session.FindApproval(a.id);
    LatestInHand(a, session.S());
    r := latest.value;
  }

  lemma LatestInHand(a: Approval, s: State)
    requires InHand(a, s) && Inv(s)
    ensures a.id in s.approvals && InHand(s.approvals[a.id], s) && s.approvals[a.id].id == a.id
    ensures s.approvals[a.id].status == a.status
  {
  }

  /** `_resume_expired_cleanup_with_lock`; None means that the session is busy. */
  method ResumeExpiredCleanupWithLock(session: Session, p: Pid, user: Identity, a: Approval,
                                      agent: nat -> AgentReply, ghost origin: State)
    returns (r: Option<Approval>, ghost seen: State)
    requires session.Settled() && Evolves(origin, session.S()) && !Holds(p, session.S())
    requires InHand(a, session.S()) && a.status.Expired?
    modifies session
    ensures session.Settled() && Evolves(origin, session.S()) && !Holds(p, session.S())
    ensures Quiet(p, old(session.S()), session.S())
    ensures r.Some? ==> r.value.id == a.id && InHand(r.value, session.S())
    // seen is the state in which the lock was tried
    ensures Evolves(old(session.S()), seen) && Evolves(seen, session.S()) && Idle(p, old(session.S()), seen)
    ensures (r.None? <==> seen.lock.Some?) && (r.None? ==> session.S() == seen)
    ensures r.Some? ==> a.id in seen.approvals && session.S().resumes
                        == seen.resumes + if seen.approvals[a.id].resume.failed then Resumption(p, a, Reject) else []
  {
    hide Inv, Evolves, InHand, Quiet, Idle, Rely, WaitingKept, FailedWith, Resumption;
    ghost var s := session.S();
    session.Interfere(p, origin);
    RelyMeans(p, s, session.S());
    InHandKept(a, s, session.S());
    ghost var s1 := session.S();
    seen := s1;
    EvolvesReflexive(s1);
    assert s1.resumes + [] == s1.resumes;
    var acquired := session.TryAcquireRunLock(p, s1);
    if !acquired {
      return None, seen;
    }
    InHandLocked(a, s1, session.S());
    LatestInHand(a, session.S());
    var latest := session.FindApproval(a.id);
    if !latest.value.status.Expired? || !latest.value.resume.failed {
      r := latest;
    } else {
      SameStatus(a, latest.value, session.S());
      SameResumption(p, a, latest.value, Reject);
      var b := ResumeExpiredCleanup(session, p, user, latest.value, agent, s1);
      r := Some(b);
    }
    ghost var s2 := session.S();
    session.ReleaseRunLock(p, s1);
    EvolvesTransitive(origin, s1, session.S());
    InHandLocked(r.value, s2, session.S());
    QuietSame(p, s1, session.S());
    QuietThen(p, s, s1, session.S());
  }

  lemma SameResumption(p: Pid, a: Approval, b: Approval, d: Decision)
    requires a.id == b.id
    ensures Resumption(p, a, d) == Resumption(p, b, d)
  {
  }

  lemma InHandLocked(a: Approval, s: State, s': State)
    requires InHand(a, s) && s'.approvals == s.approvals
    ensures InHand(a, s')
  {
  }

  lemma SameStatus(a: Approval, b: Approval, s: State)
    requires InHand(a, s) && InHand(b, s) && a.id == b.id
    ensures a.status == b.status
  {
  }

  lemma Expirable(p: Pid, a: Approval, s: State)
    requires Holds(p, s) && a.id in s.approvals && s.approvals[a.id] == a && a.status.Pending? && IsExpired(a, s.now)
    ensures var b := MarkedExpired(a, s.now);
            && b.id == a.id && Enabled(p, s, ApprovalExpired(a.id))
            && Apply(p, s, ApprovalExpired(a.id)) == s.(approvals := s.approvals[b.id := b])
            && InHand(b, s.(approvals := s.approvals[b.id := b]))
  {
  }

  /** `_mark_expired`. */
  method MarkExpired(session: Session, p: Pid, a: Approval, ghost origin: State) returns (b: Approval)
    requires session.Settled() && Evolves(origin, session.S()) && Holds(p, session.S())
    requires a.id in session.S().approvals && session.S().approvals[a.id] == a && a.status.Pending?
    requires IsExpired(a, session.S().now)
    modifies session
    ensures old(session.approvals) <= session.approvals
    ensures session.Settled() && Evolves(origin, session.S()) && InHand(b, session.S())
    ensures b == MarkedExpired(a, old(session.now))
    ensures session.S() == old(session.S()).(approvals := old(session.S()).approvals[a.id := b])
  {
    hide Inv, Evolves, InHand, Enabled, Apply;
    Expirable(p, a, session.S());
    b := a.(status := Expired, expiredAt := Some(session.now), resume := ResumeInfo(true, Some(CLEANUP_PENDING), None));
    session.AppendApproval(b);
    session.Commit(p, ApprovalExpired(a.id), origin);
  }

  /** Approvals may have stopped waiting, but none began to, and one that has not expired still waits. */
  predicate OnlyExpired(s: State, s': State)
  {
    && s.now <= s'.now && s'.approvals.Keys == s.approvals.Keys
    && (forall i :: i in s'.approvals && s'.approvals[i].status.Pending? ==> s.approvals[i] == s'.approvals[i])
    && (forall i :: i in s.approvals && s.approvals[i].status.Pending? && !IsExpired(s.approvals[i], s'.now) ==>
                      s'.approvals[i] == s.approvals[i])
  }

  /** Every approval but this one waits as before, if it waited. */
  predicate OthersWait(aid: nat, s: State, s': State)
  {
    forall i :: i in s.approvals && i != aid && s.approvals[i].status.Pending? ==>
                  i in s'.approvals && s'.approvals[i] == s.approvals[i]
  }

  lemma OthersWaitThen(aid: nat, s: State, s1: State, s2: State)
    requires OthersWait(aid, s, s1) && WaitingKept(s1.approvals, s2.approvals)
    ensures OthersWait(aid, s, s2)
  {
  }

  lemma OthersStillWait(aid: nat, s: State, s': State)
    requires WaitingKept(s.approvals, s'.approvals)
    ensures OthersWait(aid, s, s')
  {
  }

  lemma OnlyExpiredThen(s: State, t: State, u: State)
    requires OnlyExpired(s, t) && OnlyExpired(t, u)
    ensures OnlyExpired(s, u)
  {
  }

  lemma WaitingMeans(s: State, s': State)
    requires WaitingKept(s.approvals, s'.approvals) && Evolves(s, s')
    ensures OnlyExpired(s, s')
  {
  }

  lemma MarkingMeans(s: State, s': State, a: Approval, b: Approval)
    requires a.id in s.approvals && s.approvals[a.id] == a && IsExpired(a, s.now) && !b.status.Pending?
    requires s' == s.(approvals := s.approvals[a.id := b])
    ensures OnlyExpired(s, s') && OthersWait(a.id, s, s')
  {
  }

  /** `_expire_and_resume`. */
  method ExpireAndResume(session: Session, p: Pid, user: Identity, a: Approval, agent: nat -> AgentReply,
                         ghost origin: State)
    returns (r: Approval)
    requires session.Settled() && Evolves(origin, session.S()) && Holds(p, session.S())
    requires a.id in session.S().approvals && session.S().approvals[a.id] == a && a.status.Pending?
    requires IsExpired(a, session.S().now)
    modifies session
    ensures old(session.approvals) <= session.approvals
    ensures session.Settled() && Evolves(origin, session.S())
    ensures session.S().lock == old(session.S()).lock && session.S().writes == old(session.S()).writes
    ensures OnlyExpired(old(session.S()), session.S()) && OthersWait(a.id, old(session.S()), session.S())
    ensures r.id == a.id && InHand(r, session.S()) && r.status.Expired?
    ensures r.id in session.S().approvals && session.S().approvals[r.id].status.Expired?
    ensures session.S().resumes == old(session.S()).resumes + Resumption(p, a, Reject)
  {
    hide Inv, Evolves, InHand, WaitingKept, FailedWith, OnlyExpired, OthersWait, Resumption;
    ghost var s := session.S();
    var b := MarkExpired(session, p, a, origin);
    ghost var s1 := session.S();
    MarkingMeans(s, s1, a, b);
    EvolvesReflexive(s1);
    SameResumption(p, a, b, Reject);
    r := ResumeExpiredCleanup(session, p, user, b, agent, s1);
    EvolvesTransitive(origin, s1, session.S());
    WaitingMeans(s1, session.S());
    OthersWaitThen(a.id, s, s1, session.S());
    OnlyExpiredThen(s, s1, session.S());
    InHandKept(b, s1, session.S());
    SameStatus(b, r, session.S());
    LatestInHand(b, session.S());
  }

  /** The approvals of the list up to k no longer wait past their expiry. */
  predicate Cleared(all: seq<Approval>, k: nat, s0: State, s: State)
    requires k <= |all|
  {
    forall j :: 0 <= j < k ==> all[j].id in s.approvals
                               && !(s.approvals[all[j].id].status.Pending? && IsExpired(s.approvals[all[j].id], s0.now))
  }

  lemma ClearedKept(all: seq<Approval>, k: nat, s0: State, s: State, s': State)
    requires k <= |all| && Cleared(all, k, s0, s) && OnlyExpired(s, s')
    ensures Cleared(all, k, s0, s')
  {
    forall j | 0 <= j < k
      ensures all[j].id in s'.approvals
              && !(s'.approvals[all[j].id].status.Pending? && IsExpired(s'.approvals[all[j].id], s0.now))
    {
      assert all[j].id in s.approvals;
    }
  }

  lemma ClearedNext(all: seq<Approval>, k: nat, s0: State, s: State)
    requires k < |all| && Cleared(all, k, s0, s) && OnlyExpired(s0, s) && all[k].id in s.approvals
    requires s.approvals[all[k].id].status.Pending? ==> !IsExpired(s.approvals[all[k].id], s.now)
    ensures Cleared(all, k + 1, s0, s)
  {
  }

  lemma ClearedAll(all: seq<Approval>, s0: State, s: State)
    requires Lists(all, s0.approvals, ApprovalId) && Cleared(all, |all|, s0, s) && OnlyExpired(s0, s)
    ensures forall i :: i in s.approvals && s.approvals[i].status.Pending? ==> !IsExpired(s.approvals[i], s0.now)
  {
    forall i | i in s.approvals && s.approvals[i].status.Pending? ensures !IsExpired(s.approvals[i], s0.now) {
      assert s0.approvals[i] in all && ApprovalId(s0.approvals[i]) == i;
      var j :| 0 <= j < |all| && all[j] == s0.approvals[i];
      assert all[j].id == i;
    }
  }

  lemma RelyOnlyExpired(p: Pid, s: State, s': State)
    requires Holds(p, s) && Rely(p, s, s')
    ensures OnlyExpired(s, s') && s'.lock == s.lock && s'.writes == s.writes
  {
    hide Inv;
  }

  lemma ListedId(all: seq<Approval>, j: nat, s0: State, s: State)
    requires j < |all| && Lists(all, s0.approvals, ApprovalId) && OnlyExpired(s0, s)
    ensures all[j].id in s.approvals
  {
    assert ApprovalId(all[j]) in s0.approvals;
  }

  lemma PendingSince(s0: State, s: State, aid: nat)
    requires OnlyExpired(s0, s) && aid in s.approvals && s.approvals[aid].status.Pending?
    ensures aid in s0.approvals && s0.approvals[aid] == s.approvals[aid]
  {
  }

  /** The approvals in the list waited at the start and are expired now. */
  predicate Marked(expired: seq<Approval>, s0: State, s: State)
  {
    forall r :: r in expired ==> r.id in s0.approvals && s0.approvals[r.id].status.Pending?
                                 && r.id in s.approvals && s.approvals[r.id].status.Expired?
  }

  lemma MarkedKept(expired: seq<Approval>, s0: State, s: State, s': State)
    requires Marked(expired, s0, s) && Evolves(s, s')
    ensures Marked(expired, s0, s')
  {
  }

  lemma MarkedMore(expired: seq<Approval>, r: Approval, s0: State, s: State)
    requires Marked(expired, s0, s) && r.id in s0.approvals && s0.approvals[r.id].status.Pending?
    requires r.id in s.approvals && s.approvals[r.id].status.Expired?
    ensures Marked(expired + [r], s0, s)
  {
  }

  lemma CurrentInHand(s: State, aid: nat)
    requires Inv(s) && aid in s.approvals
    ensures s.approvals[aid].id == aid
    ensures !s.approvals[aid].status.Pending? ==> InHand(s.approvals[aid], s)
  {
  }

  /** The approval waits past its time, or has expired and its paused run could not be cleaned up yet. */
  predicate CleanupDue(a: Approval, now: Time)
  {
    (a.status.Pending? && IsExpired(a, now)) || (a.status.Expired? && a.resume.failed)
  }

  function CleanupOf(p: Pid, a: Approval, now: Time): seq<Resume>
  {
    if CleanupDue(a, now) then Resumption(p, a, Reject) else []
  }

  lemma CleanupCases(p: Pid, a: Approval, now: Time)
    ensures a.status.Pending? ==> CleanupOf(p, a, now) == if IsExpired(a, now) then Resumption(p, a, Reject) else []
    ensures a.status.Expired? ==> CleanupOf(p, a, now) == if a.resume.failed then Resumption(p, a, Reject) else []
    ensures !a.status.Pending? && !a.status.Expired? ==> CleanupOf(p, a, now) == []
  {
  }

  /** One turn of the loop over the approvals of a session. */
  method ExpireOne(session: Session, p: Pid, user: Identity, aid: nat, agent: nat -> AgentReply, ghost origin: State)
    returns (r: Option<Approval>)
    requires session.Settled() && Evolves(origin, session.S()) && Holds(p, session.S()) && aid in session.S().approvals
    modifies session
    ensures old(session.approvals) <= session.approvals
    ensures session.Settled() && Evolves(origin, session.S())
    ensures session.S().lock == old(session.S()).lock && session.S().writes == old(session.S()).writes
    ensures OnlyExpired(old(session.S()), session.S()) && aid in session.S().approvals
    ensures OthersWait(aid, old(session.S()), session.S())
    ensures var a := old(session.S()).approvals[aid];
            r.Some? <==> a.status.Pending? && IsExpired(a, old(session.S()).now)
    ensures r.Some? ==> r.value.id == aid && session.S().approvals[aid].status.Expired?
    ensures session.S().resumes
            == old(session.S()).resumes + CleanupOf(p, old(session.S()).approvals[aid], old(session.S()).now)
    ensures r.None? && session.S().approvals[aid].status.Pending? ==>
              session.S().approvals[aid] == old(session.S()).approvals[aid] && session.S().now == old(session.S()).now
  {
    hide Inv, Evolves, InHand, WaitingKept, FailedWith, OnlyExpired, OthersWait, Resumption, CleanupOf;
    ghost var s := session.S();
    CurrentInHand(s, aid);
    WaitingNothing(aid, s);
    var latest := session.FindApproval(aid);
    var a := latest.value;
    CleanupCases(p, a, s.now);
    assert s.resumes + [] == s.resumes;
    if a.status.Pending? && IsExpired(a, session.now) {
      var marked := ExpireAndResume(session, p, user, a, agent, origin);
      return Some(marked);
    }
    if a.status.Expired? && a.resume.failed {
      EvolvesReflexive(s);
      var b := ResumeExpiredCleanup(session, p, user, a, agent, s);
      EvolvesTransitive(origin, s, session.S());
      WaitingMeans(s, session.S());
      OthersStillWait(aid, s, session.S());
      LatestInHand(b, session.S());
      SameStatusInLog(b, session.S());
      InHandKept(a, s, session.S());
      SameStatus(a, b, session.S());
    }
    return None;
  }

  lemma WaitingNothing(aid: nat, s: State)
    ensures OnlyExpired(s, s) && OthersWait(aid, s, s)
  {
  }

  lemma SameStatusInLog(a: Approval, s: State)
    requires InHand(a, s)
    ensures a.id in s.approvals && s.approvals[a.id].status == a.status
  {
  }

  /** p has let the agent see the refusal of this approval since s0. */
  predicate Attended(p: Pid, aid: nat, s0: State, s: State)
  {
    |s0.resumes| <= |s.resumes| && Resume(p, aid, Reject) in s.resumes[|s0.resumes|..]
  }

  /** A record newer than those of the old log says that nothing is left to clean up. */
  predicate FoundClean(log0: seq<Approval>, log: seq<Approval>, aid: nat)
  {
    exists j :: |log0| <= j < |log| && log[j].id == aid && !log[j].resume.failed
  }

  /** The clean-ups due in s0, of approvals in the list up to k, have been tried; one that was due for the second
      time may have been found done. */
  predicate Tried(p: Pid, all: seq<Approval>, k: nat, s0: State, s: State, log0: seq<Approval>, log: seq<Approval>)
    requires k <= |all|
  {
    forall j :: 0 <= j < k && CleanupDue(all[j], s0.now) ==>
      Attended(p, all[j].id, s0, s) || (all[j].status.Expired? && FoundClean(log0, log, all[j].id))
  }

  lemma TriedKept(p: Pid, all: seq<Approval>, k: nat, s0: State, s: State, s': State, log0: seq<Approval>,
                  log: seq<Approval>, log': seq<Approval>)
    requires k <= |all| && Tried(p, all, k, s0, s, log0, log) && s.resumes <= s'.resumes && log <= log'
    ensures Tried(p, all, k, s0, s', log0, log')
  {
    forall j | 0 <= j < k && CleanupDue(all[j], s0.now)
      ensures Attended(p, all[j].id, s0, s') || (all[j].status.Expired? && FoundClean(log0, log', all[j].id))
    {
      if Attended(p, all[j].id, s0, s) {
        AttendedStill(p, all[j].id, s0, s, s');
      } else {
        FoundCleanStill(log0, log, log', all[j].id);
      }
    }
  }

  lemma AttendedStill(p: Pid, aid: nat, s0: State, s: State, s': State)
    requires Attended(p, aid, s0, s) && s.resumes <= s'.resumes
    ensures Attended(p, aid, s0, s')
  {
    var n := |s0.resumes|;
    var i :| 0 <= i < |s.resumes[n..]| && s.resumes[n..][i] == Resume(p, aid, Reject);
    assert s'.resumes[n..][i] == s.resumes[n..][i];
  }

  lemma AttendedNow(p: Pid, a: Approval, s0: State, s: State, s': State)
    requires s0.resumes <= s.resumes && s'.resumes == s.resumes + Resumption(p, a, Reject)
    ensures Attended(p, a.id, s0, s')
  {
    var n := |s0.resumes|;
    assert s'.resumes[n..] == s.resumes[n..] + Resumption(p, a, Reject);
  }

  /** The turn for one approval: s is the state in which it was looked at. */
  lemma TriedNext(p: Pid, all: seq<Approval>, k: nat, s0: State, s: State, s': State, log0: seq<Approval>,
                  log: seq<Approval>, log': seq<Approval>)
    requires k < |all| && Tried(p, all, k, s0, s', log0, log') && Lists(all, s0.approvals, ApprovalId)
    requires s0.approvals == Latest(log0, ApprovalId) && s.approvals == Latest(log, ApprovalId)
    requires log0 <= log <= log' && Evolves(s0, s) && OnlyExpired(s0, s) && all[k].id in s.approvals
    requires s'.resumes == s.resumes + CleanupOf(p, s.approvals[all[k].id], s.now) && NotYet(all, k, s)
    ensures Tried(p, all, k + 1, s0, s', log0, log')
  {
    hide *;
    var a, b := all[k], s.approvals[all[k].id];
    ListedRecord(all, k, s0);
    LatestHasId(log, a.id);
    if CleanupDue(a, s0.now) {
      if CleanupDue(b, s.now) {
        CleanupWhenDue(p, b, s.now);
        TimeGrows(s0, s);
        AttendedNow(p, b, s0, s, s');
      } else {
        NotYetAt(all, k, s);
        DueChanged(a, b, s0, s);
        ChangedSince(log0, log, a.id);
        CleanSince(a, b, log0, log, log');
      }
      TriedOneMore(p, all, k, s0, s', log0, log');
    } else {
      TriedOneMore(p, all, k, s0, s', log0, log');
    }
  }

  lemma ListedRecord(all: seq<Approval>, k: nat, s: State)
    requires Lists(all, s.approvals, ApprovalId) && k < |all|
    ensures all[k].id in s.approvals && s.approvals[all[k].id] == all[k]
  {
    assert all[k] in all && ApprovalId(all[k]) in s.approvals;
  }

  lemma LatestHasId(log: seq<Approval>, aid: nat)
    requires aid in Latest(log, ApprovalId)
    ensures Latest(log, ApprovalId)[aid].id == aid
  {
    assert ApprovalId(Latest(log, ApprovalId)[aid]) == aid;
  }

  lemma CleanupWhenDue(p: Pid, a: Approval, now: Time)
    requires CleanupDue(a, now)
    ensures CleanupOf(p, a, now) == Resumption(p, a, Reject)
  {
  }

  lemma NotYetAt(all: seq<Approval>, k: nat, s: State)
    requires NotYet(all, k, s) && k < |all| && all[k].id in s.approvals
    ensures all[k].status.Pending? ==> s.approvals[all[k].id] == all[k]
  {
  }

  /** What was due and is no longer has changed, and as it still waits past its time if it waited, it had
      expired before. */
  lemma DueChanged(a: Approval, b: Approval, s0: State, s: State)
    requires a.status.Pending? ==> a == b
    requires a.id in s0.approvals && s0.approvals[a.id] == a && a.id in s.approvals && s.approvals[a.id] == b
    requires Evolves(s0, s) && CleanupDue(a, s0.now) && !CleanupDue(b, s.now)
    ensures a != b && !b.resume.failed && a.status.Expired?
  {
  }

  lemma CleanSince(a: Approval, b: Approval, log0: seq<Approval>, log: seq<Approval>, log': seq<Approval>)
    requires log0 <= log <= log' && b.id == a.id && !b.resume.failed
    requires exists j :: |log0| <= j < |log| && log[j] == b
    ensures FoundClean(log0, log', a.id)
  {
    var j :| |log0| <= j < |log| && log[j] == b;
    assert log'[j] == b;
  }

  lemma TriedOneMore(p: Pid, all: seq<Approval>, k: nat, s0: State, s: State, log0: seq<Approval>, log: seq<Approval>)
    requires k < |all| && Tried(p, all, k, s0, s, log0, log)
    requires CleanupDue(all[k], s0.now) ==>
               Attended(p, all[k].id, s0, s) || (all[k].status.Expired? && FoundClean(log0, log, all[k].id))
    ensures Tried(p, all, k + 1, s0, s, log0, log)
  {
    hide Attended, FoundClean, CleanupDue;
  }

  /** A record that has changed was appended since. */
  lemma ChangedSince(log0: seq<Approval>, log: seq<Approval>, aid: nat)
    requires log0 <= log && aid in Latest(log0, ApprovalId)
    requires Latest(log, ApprovalId)[aid] != Latest(log0, ApprovalId)[aid]
    ensures exists j :: |log0| <= j < |log| && log[j] == Latest(log, ApprovalId)[aid]
  {
    LatestFromTail(log0, log, ApprovalId, aid);
  }

  /** `_expire_pending_approvals_unlocked`, under the run lock: afterwards nothing waits that had expired
      when the call began, nothing has expired that had time left when it ended, and every clean-up that was due
      has been tried. */
  method ExpirePendingApprovals(session: Session, p: Pid, user: Identity, agent: nat -> AgentReply, ghost origin: State)
    returns (expired: seq<Approval>)
    requires session.Settled() && Evolves(origin, session.S()) && Holds(p, session.S())
    modifies session
    ensures old(session.approvals) <= session.approvals
    ensures session.Settled() && Evolves(origin, session.S())
    ensures session.S().lock == old(session.S()).lock && session.S().writes == old(session.S()).writes
    ensures OnlyExpired(old(session.S()), session.S()) && Marked(expired, old(session.S()), session.S())
    ensures forall i :: i in session.S().approvals && session.S().approvals[i].status.Pending? ==>
                          !IsExpired(session.S().approvals[i], old(session.S()).now)
    ensures AllTried(p, old(session.S()), session.S(), old(session.approvals), session.approvals)
  {
    hide *;
    ghost var s, log := session.S(), session.approvals;
    LogIsLatest(session);
    EvolvesReflexive(s);
    var all := session.LoadApprovals();
    expired := [];
    WaitingNothing(0, s);
    NothingCleared(p, all, s, log);
    for j := 0 to |all|
      invariant session.Settled() && Evolves(s, session.S()) && log <= session.approvals
      invariant session.S().lock == s.lock && session.S().writes == s.writes
      invariant OnlyExpired(s, session.S()) && Marked(expired, s, session.S())
      invariant Cleared(all, j, s, session.S()) && Tried(p, all, j, s, session.S(), log, session.approvals)
      invariant NotYet(all, j, session.S())
    {
      var marked := ExpireListed(session, p, user, all, j, agent, s, log, expired);
      if marked.Some? {
        expired := expired + [marked.value];
      }
    }
    EvolvesTransitive(origin, s, session.S());
    ClearedAll(all, s, session.S());
    TriedAll(p, all, s, session.S(), log, session.approvals);
  }

  lemma LogIsLatest(session: Session)
    ensures session.S().approvals == Latest(session.approvals, ApprovalId)
  {
  }

  /** One turn of the loop, with the others at work before it. */
  method ExpireListed(session: Session, p: Pid, user: Identity, all: seq<Approval>, j: nat, agent: nat -> AgentReply,
                      ghost s: State, ghost log: seq<Approval>, ghost expired: seq<Approval>)
    returns (marked: Option<Approval>)
    requires session.Settled() && Evolves(s, session.S()) && log <= session.approvals && Holds(p, s)
    requires session.S().lock == s.lock && session.S().writes == s.writes
    requires OnlyExpired(s, session.S()) && Marked(expired, s, session.S()) && j < |all|
    requires Cleared(all, j, s, session.S()) && Tried(p, all, j, s, session.S(), log, session.approvals)
    requires Lists(all, s.approvals, ApprovalId) && s.approvals == Latest(log, ApprovalId)
    requires NotYet(all, j, session.S())
    modifies session
    ensures session.Settled() && Evolves(s, session.S()) && log <= session.approvals
    ensures session.S().lock == s.lock && session.S().writes == s.writes
    ensures OnlyExpired(s, session.S())
    ensures Marked(if marked.Some? then expired + [marked.value] else expired, s, session.S())
    ensures Cleared(all, j + 1, s, session.S()) && Tried(p, all, j + 1, s, session.S(), log, session.approvals)
    ensures NotYet(all, j + 1, session.S())
  {
    hide *;
    ghost var s1, log1 := session.S(), session.approvals;
    HoldsToo(p, s, s1);
    session.Interfere(p, s);
    ghost var s2, log2 := session.S(), session.approvals;
    RelyOnlyExpired(p, s1, s2);
    NotYetUnderLock(p, all, j, s1, s2);
    RelyMeans(p, s1, s2);
    OnlyExpiredThen(s, s1, s2);
    ListedId(all, j, s, s2);
    EvolvesReflexive(s2);
    HoldsToo(p, s, s2);
    LogIsLatest(session);
    marked := ExpireOne(session, p, user, all[j].id, agent, s2);
    ghost var s3 := session.S();
    EvolvesTransitive(s, s2, s3);
    OnlyExpiredThen(s, s2, s3);
    EvolvesTransitive(s1, s2, s3);
    TimeGrows(s1, s2);
    TimeGrows(s2, s3);
    MarkedKept(expired, s, s1, s3);
    ClearedKept(all, j, s, s1, s2);
    ClearedKept(all, j, s, s2, s3);
    ClearedNext(all, j, s, s3);
    TriedKept(p, all, j, s, s1, s3, log, log1, session.approvals);
    TriedNext(p, all, j, s, s2, s3, log, log2, session.approvals);
    NotYetNext(all, j, s, s2, s3);
    if marked.Some? {
      PendingSince(s, s2, all[j].id);
      MarkedMore(expired, marked.value, s, s3);
    }
  }

  lemma HoldsToo(p: Pid, s: State, s': State)
    requires Holds(p, s) && s'.lock == s.lock
    ensures Holds(p, s')
  {
  }

  /** Every clean-up due in s0 has been tried, or was found done by somebody else. */
  predicate AllTried(p: Pid, s0: State, s: State, log0: seq<Approval>, log: seq<Approval>)
  {
    forall i :: i in s0.approvals && CleanupDue(s0.approvals[i], s0.now) ==>
      Attended(p, i, s0, s) || (s0.approvals[i].status.Expired? && FoundClean(log0, log, i))
  }

  lemma AllTriedStill(p: Pid, s0: State, s: State, s': State, log0: seq<Approval>, log: seq<Approval>,
                      log': seq<Approval>)
    requires AllTried(p, s0, s, log0, log) && s.resumes <= s'.resumes && log <= log'
    ensures AllTried(p, s0, s', log0, log')
  {
    hide CleanupDue, Attended, FoundClean;
    forall i | i in s0.approvals && CleanupDue(s0.approvals[i], s0.now)
      ensures Attended(p, i, s0, s') || (s0.approvals[i].status.Expired? && FoundClean(log0, log', i))
    {
      if Attended(p, i, s0, s) {
        AttendedStill(p, i, s0, s, s');
      } else {
        FoundCleanStill(log0, log, log', i);
      }
    }
  }

  lemma FoundCleanStill(log0: seq<Approval>, log: seq<Approval>, log': seq<Approval>, aid: nat)
    requires FoundClean(log0, log, aid) && log <= log'
    ensures FoundClean(log0, log', aid)
  {
    var i :| |log0| <= i < |log| && log[i].id == aid && !log[i].resume.failed;
    assert log'[i] == log[i];
  }

  lemma TriedAll(p: Pid, all: seq<Approval>, s0: State, s: State, log0: seq<Approval>, log: seq<Approval>)
    requires Lists(all, s0.approvals, ApprovalId) && Tried(p, all, |all|, s0, s, log0, log)
    ensures AllTried(p, s0, s, log0, log)
  {
    hide Attended, FoundClean, CleanupDue;
    forall i | i in s0.approvals && CleanupDue(s0.approvals[i], s0.now)
      ensures Attended(p, i, s0, s) || (s0.approvals[i].status.Expired? && FoundClean(log0, log, i))
    {
      assert s0.approvals[i] in all && ApprovalId(s0.approvals[i]) == i;
      var j :| 0 <= j < |all| && all[j] == s0.approvals[i];
      assert all[j].id == i;
    }
  }

  lemma NothingCleared(p: Pid, all: seq<Approval>, s: State, log: seq<Approval>)
    requires Lists(all, s.approvals, ApprovalId)
    ensures Cleared(all, 0, s, s) && Marked([], s, s) && Tried(p, all, 0, s, s, log, log) && NotYet(all, 0, s)
  {
    forall i: nat | i < |all| ensures all[i].id in s.approvals && s.approvals[all[i].id] == all[i] {
      ListedRecord(all, i, s);
    }
  }

  /** The approvals of the list from k on wait as they did, if they waited. */
  predicate NotYet(all: seq<Approval>, k: nat, s: State)
  {
    forall i :: k <= i < |all| && all[i].status.Pending? ==>
                  all[i].id in s.approvals && s.approvals[all[i].id] == all[i]
  }

  lemma NotYetUnderLock(p: Pid, all: seq<Approval>, k: nat, s: State, s': State)
    requires NotYet(all, k, s) && Holds(p, s) && Rely(p, s, s')
    ensures NotYet(all, k, s')
  {
    WaitingUnder(p, s, s');
  }

  lemma NotYetNext(all: seq<Approval>, k: nat, s0: State, s: State, s': State)
    requires k < |all| && Lists(all, s0.approvals, ApprovalId) && NotYet(all, k, s) && OthersWait(all[k].id, s, s')
    ensures NotYet(all, k + 1, s')
  {
    forall i | k + 1 <= i < |all| && all[i].status.Pending?
      ensures all[i].id in s'.approvals && s'.approvals[all[i].id] == all[i]
    {
      assert ApprovalId(all[k]) != ApprovalId(all[i]);
    }
  }

  /** `_needs_expiration_cleanup`. */
  predicate NeedsCleanup(s: State)
  {
    exists i :: i in s.approvals && ((s.approvals[i].status.Pending? && IsExpired(s.approvals[i], s.now))
                                     || (s.approvals[i].status.Expired? && s.approvals[i].resume.failed))
  }

  method NeedsExpirationCleanup(session: Session) returns (r: bool)
    ensures r <==> NeedsCleanup(session.S())
  {
    var all := session.LoadApprovals();
    var now := session.now;
    r := exists a :: a in all && ((a.status.Pending? && IsExpired(a, now)) || (a.status.Expired? && a.resume.failed));
    if r {
      ghost var a :| a in all && ((a.status.Pending? && IsExpired(a, now)) || (a.status.Expired? && a.resume.failed));
      assert session.S().approvals[ApprovalId(a)] == a;
    } else {
      assert forall i :: i in session.S().approvals ==> session.S().approvals[i] in all;
    }
  }

  /** `expire_pending_approvals_for_query`: cleans up if that is needed and the session is not busy. seen is the
      state in which the lock was tried, if it was. */
  method ExpireForQuery(session: Session, p: Pid, user: Identity, agent: nat -> AgentReply)
    returns (expired: seq<Approval>, ghost seen: State, ghost seenLog: seq<Approval>)
    requires session.Settled() && !Holds(p, session.S())
    modifies session
    ensures session.Settled() && !Holds(p, session.S()) && Evolves(old(session.S()), session.S())
    ensures Quiet(p, old(session.S()), session.S())
    ensures forall r :: r in expired ==>
              r.id in session.S().approvals && session.S().approvals[r.id].status.Expired?
    ensures Evolves(old(session.S()), seen) && Evolves(seen, session.S()) && Idle(p, old(session.S()), seen)
    ensures !NeedsCleanup(old(session.S())) || seen.lock.Some? ==> expired == [] && session.S() == seen
    ensures NeedsCleanup(old(session.S())) && seen.lock.None? ==>
              && AllTried(p, seen, session.S(), seenLog, session.approvals)
              && forall i :: i in session.S().approvals && session.S().approvals[i].status.Pending? ==>
                               !IsExpired(session.S().approvals[i], seen.now)
  {
    hide *;
    ghost var s := session.S();
    seen, seenLog := s, session.approvals;
    EvolvesReflexive(s);
    QuietSame(p, s, s);
    IdleSame(p, s, s);
    var needed := NeedsExpirationCleanup(session);
    if !needed {
      return [], seen, seenLog;
    }
    session.Interfere(p, s);
    ghost var s1 := session.S();
    seen, seenLog := s1, session.approvals;
    RelyMeans(p, s, s1);
    EvolvesReflexive(s1);
    var acquired := session.TryAcquireRunLock(p, s1);
    if !acquired {
      return [], seen, seenLog;
    }
    ghost var s2 := session.S();
    LockOnly(s1, s2);
    EvolvesReflexive(s2);
    needed := NeedsExpirationCleanup(session);
    expired := [];
    if needed {
      expired := ExpirePendingApprovals(session, p, user, agent, s2);
      MarkedMeans(expired, s2, session.S());
    } else {
      NothingToClean(p, s2, session.S(), session.approvals);
    }
    ghost var s3 := session.S();
    session.ReleaseRunLock(p, s2);
    TriedBetween(p, s1, s2, s3, session.S(), seenLog, session.approvals);
    QuietSame(p, s1, session.S());
    QuietThen(p, s, s1, session.S());
    EvolvesTransitive(s1, s2, session.S());
    EvolvesTransitive(s, s1, session.S());
  }

  lemma IdleSame(p: Pid, s: State, s': State)
    requires s'.resumes == s.resumes && s'.marks == s.marks
    ensures Idle(p, s, s')
  {
  }

  lemma MarkedMeans(expired: seq<Approval>, s0: State, s: State)
    requires Marked(expired, s0, s)
    ensures forall r :: r in expired ==> r.id in s.approvals && s.approvals[r.id].status.Expired?
  {
  }

  lemma NothingToClean(p: Pid, s: State, s': State, log: seq<Approval>)
    requires !NeedsCleanup(s) && s' == s
    ensures AllTried(p, s, s', log, log)
    ensures forall i :: i in s.approvals && s.approvals[i].status.Pending? ==> !IsExpired(s.approvals[i], s.now)
  {
  }

  /** Taking the lock before and giving it back after changes nothing about what was tried. */
  lemma TriedBetween(p: Pid, s1: State, s2: State, s3: State, s4: State, log0: seq<Approval>, log: seq<Approval>)
    requires AllTried(p, s2, s3, log0, log) && s2 == s1.(lock := s2.lock) && s4 == s3.(lock := s4.lock)
    ensures AllTried(p, s1, s4, log0, log)
  {
    hide CleanupDue, FoundClean;
  }

  // ---------------------------------------------------------------- a decision repeated

  lemma StatusInLog(a: Approval, d: Decision, s: State)
    requires InHand(a, s)
    ensures a.id in s.approvals && s.approvals[a.id].status == a.status && a.status != Pending
  {
  }

  /** What a decision call may say about the approval when it returns. */
  predicate Truthful(r: DecideOutcome, aid: nat, d: Decision, s: State)
  {
    && (r.TooLate? ==> r.approval.id == aid && aid in s.approvals && s.approvals[aid].status.Expired?)
    && (r.DecisionConflict? ==> aid in s.approvals && !s.approvals[aid].status.Pending?
                                && s.approvals[aid].status != StatusOf(d))
    && (r.TaskConflict? ==> d == Approve && aid in s.approvals && s.approvals[aid].status.Pending?)
    && (r.ResumeError? || r.NextRefused? || r.Handled? ==> aid in s.approvals && s.approvals[aid].status == StatusOf(d))
    && (r.Handled? ==> r.approval.id == aid && SameDecision(r.approval, s.approvals[aid])
                       && (r.next.Some? ==> r.next.value.id in s.approvals
                                            && s.approvals[r.next.value.id].status.Pending?))
  }

  function OutcomeOf(r: ResumeOutcome): DecideOutcome
  {
    match r
    case ResumeFailed => ResumeError
    case NextFailed => NextRefused
    case Resumed(a, next) => Handled(a, next)
  }

  lemma ResumedTruthful(a: Approval, r: ResumeOutcome, d: Decision, s: State, s': State)
    requires InHand(a, s') && a.status == StatusOf(d)
    requires r.Resumed? ==> r.approval.id == a.id && InHand(r.approval, s')
    requires r.Resumed? && r.next.Some? ==> NextPending(r.next.value, s, s')
    ensures Truthful(OutcomeOf(r), a.id, d, s')
  {
  }

  lemma TruthfulUnlocked(r: DecideOutcome, aid: nat, d: Decision, s: State, s': State)
    requires Truthful(r, aid, d, s) && s'.approvals == s.approvals
    ensures Truthful(r, aid, d, s')
  {
  }

  /** What the caller is told follows from the agent's reply; free says that another approval may be made. */
  predicate AnswerFollows(r: DecideOutcome, reply: AgentReply, free: bool, user: Identity, from: Time, to: Time)
  {
    && (r.ResumeError? || r.NextRefused? || r.Handled?)
    && (r.ResumeError? <==> reply.AgentRaised?)
    && (r.NextRefused? <==> AsksForNext(reply, true) && !(free && WellFormed(reply.request.value, user)))
    && (r.Handled? ==> (r.next.Some? <==> AsksForNext(reply, true)))
    && (r.Handled? && r.next.Some? ==> Requested(r.next.value, reply.request.value, from, to))
  }

  lemma OutcomeMeans(r: ResumeOutcome, reply: AgentReply, user: Identity, s: State, s': State)
    requires OutcomeFollows(r, reply, true, user, s, s')
    ensures AnswerFollows(OutcomeOf(r), reply, NoPending(s), user, s.now, s'.now)
  {
  }

  lemma AnswerSince(r: DecideOutcome, reply: AgentReply, free: bool, user: Identity, from: Time, later: Time, to: Time)
    requires AnswerFollows(r, reply, free, user, later, to) && from <= later
    ensures AnswerFollows(r, reply, free, user, from, to)
  {
  }

  lemma AnswerKinds(r: DecideOutcome, reply: AgentReply, free: bool, user: Identity, from: Time, to: Time)
    requires AnswerFollows(r, reply, free, user, from, to)
    ensures r.ResumeError? || r.NextRefused? || r.Handled?
  {
  }

  /** Resumes a decided approval under the lock and reports the outcome of the call. */
  method ResumeLocked(session: Session, p: Pid, user: Identity, a: Approval, d: Decision, agent: nat -> AgentReply,
                      ghost origin: State)
    returns (r: DecideOutcome)
    requires session.Settled() && Evolves(origin, session.S()) && Holds(p, session.S()) && InHand(a, session.S())
    requires a.status == StatusOf(d)
    modifies session
    ensures session.Settled() && Evolves(origin, session.S()) && session.S().lock == old(session.S()).lock
    ensures Acted(p, a.id, d, old(session.S()), session.S()) && Truthful(r, a.id, d, session.S())
    ensures session.S().resumes == old(session.S()).resumes + Resumption(p, a, d)
    ensures AnswerFollows(r, agent(a.id), NoPending(old(session.S())), user, old(session.S()).now, session.S().now)
  {
    hide *;
    ghost var s := session.S();
    ApprovedAs(a, d);
    var outcome := ResumeDecided(session, p, user, a, d, true, agent(a.id), origin);
    ActedServed(p, a, d, s, session.S());
    ResumedTruthful(a, outcome, d, s, session.S());
    OutcomeMeans(outcome, agent(a.id), user, s, session.S());
    r := OutcomeOf(outcome);
  }

  lemma ApprovedAs(a: Approval, d: Decision)
    requires a.status == StatusOf(d)
    ensures d == Approve ==> a.status.Approved?
    ensures d == Reject ==> a.status.Rejected?
  {
  }

  predicate HasOperations(aid: nat, s: State)
  {
    exists i :: i in s.operations && s.operations[i].approvalId == Some(aid)
  }

  /** Resuming had failed before any operation was recorded, and this is the decision that it was about. */
  predicate ResumeDue(a: Approval, d: Decision, s: State)
  {
    a.status == StatusOf(d) && a.resume.failed && !HasOperations(a.id, s)
  }

  lemma NoneRecorded(a: Approval, d: Decision, ids: set<nat>, s: State)
    requires forall i :: i in ids <==> i in s.operations && s.operations[i].approvalId == Some(a.id)
    requires a.status == StatusOf(d)
    ensures ResumeDue(a, d, s) <==> a.resume.failed && ids == {}
  {
  }

  /** The answer to a decision sent again when nothing has to be resumed: the record, with the creation notice
      if the approval has tasks. */
  predicate AnsweredAgain(r: DecideOutcome, a: Approval, d: Decision, s: State, s': State)
  {
    if a.status != StatusOf(d) then r.DecisionConflict?
    else
      && r.Handled? && r.next.None? && r.approval == a.(creationNotice := r.approval.creationNotice)
      && (a.creationNotice || (d == Approve && HasTasksOf(a.id, s)) ==> r.approval.creationNotice)
      && (r.approval.creationNotice ==> a.creationNotice || (d == Approve && HasTasksOf(a.id, s')))
  }

  /** A decision sent again: refused if it contradicts the one recorded, resumed again if resuming had
      failed before any operation was recorded, otherwise only answered, with the creation notice if that
      is still due. The copy in hand may be stale; locked says whether p holds the run lock. seen is the state in
      which the lock was tried, or after which nothing else happened. */
  method HandleTerminalDecision(session: Session, p: Pid, user: Identity, a: Approval, d: Decision, locked: bool,
                                agent: nat -> AgentReply, ghost origin: State)
    returns (r: DecideOutcome, ghost seen: State)
    requires session.Settled() && Evolves(origin, session.S()) && InHand(a, session.S())
    requires locked <==> Holds(p, session.S())
    modifies session
    ensures session.Settled() && Evolves(origin, session.S()) && (locked <==> Holds(p, session.S()))
    ensures locked ==> session.S().lock == old(session.S()).lock
                       && WaitingKept(old(session.S()).approvals, seen.approvals)
                       && seen.resumes == old(session.S()).resumes
    ensures Acted(p, a.id, d, old(session.S()), session.S()) && Truthful(r, a.id, d, session.S())
    ensures Evolves(old(session.S()), seen) && Evolves(seen, session.S()) && Idle(p, old(session.S()), seen)
    ensures r.RunLocked? <==> ResumeDue(a, d, old(session.S())) && !locked && seen.lock.Some?
    ensures r.RunLocked? ==> session.S() == seen
    ensures ResumeDue(a, d, old(session.S())) && !r.RunLocked? ==>
              && session.S().resumes == seen.resumes + Resumption(p, a, d)
              && AnswerFollows(r, agent(a.id), NoPending(seen), user, seen.now, session.S().now)
    ensures !ResumeDue(a, d, old(session.S())) || r.RunLocked? ==> session.S().resumes == seen.resumes
    ensures !ResumeDue(a, d, old(session.S())) ==>
              Quiet(p, old(session.S()), session.S()) && AnsweredAgain(r, a, d, old(session.S()), session.S())
  {
    hide *;
    ghost var s := session.S();
    seen := s;
    EvolvesReflexive(s);
    QuietSame(p, s, s);
    IdleSame(p, s, s);
    ActedQuietly(p, a.id, d, s, s);
    StatusInLog(a, d, s);
    WaitingSame(s);
    if a.status != StatusOf(d) {
      ConflictTruthful(a.id, d, s);
      NotTheDecision(a, d, s);
      return DecisionConflict, seen;
    }
    var operations := OperationIdsOf(session, a.id);
    NoneRecorded(a, d, operations, s);
    session.Interfere(p, s);
    ghost var s1 := session.S();
    seen := s1;
    RelyMeans(p, s, s1);
    InHandKept(a, s, s1);
    ActedQuietly(p, a.id, d, s, s1);
    EvolvesReflexive(s1);
    EvolvesTransitive(origin, s, s1);
    if locked {
      LockSteady(p, s, s1);
    }
    if a.resume.failed && operations == {} {
      r := ResumeAgain(session, p, user, a, d, locked, agent, s1);
      ActedThen(p, a.id, d, s, s1, session.S());
    } else {
      var b := NoticeCreation(session, p, a, d, s1);
      QuietSame(p, s1, session.S());
      QuietThen(p, s, s1, session.S());
      ActedQuietly(p, a.id, d, s, session.S());
      HandledTruthful(a, b, d, session.S());
      AnsweredWith(a, b, d, s, s1, session.S());
      SameResumes(p, a, b, s1, session.S());
      r := Handled(b, None);
    }
    EvolvesTransitive(origin, s1, session.S());
  }

  lemma SameResumes(p: Pid, a: Approval, b: Approval, s: State, s': State)
    requires s' == if b == a then s else s.(approvals := s.approvals[b.id := b])
    ensures s'.resumes == s.resumes && s'.lock == s.lock && (Holds(p, s) <==> Holds(p, s'))
  {
  }

  lemma WaitingSame(s: State)
    ensures WaitingKept(s.approvals, s.approvals)
  {
  }

  lemma NotTheDecision(a: Approval, d: Decision, s: State)
    requires a.status != StatusOf(d)
    ensures !ResumeDue(a, d, s) && AnsweredAgain(DecisionConflict, a, d, s, s)
  {
  }

  lemma AnsweredWith(a: Approval, b: Approval, d: Decision, s: State, s1: State, s': State)
    requires a.status == StatusOf(d) && b == a.(creationNotice := b.creationNotice) && Evolves(s, s1)
    requires b.creationNotice <==> a.creationNotice || (d == Approve && HasTasksOf(a.id, s1))
    requires s' == if b == a then s1 else s1.(approvals := s1.approvals[b.id := b])
    ensures AnsweredAgain(Handled(b, None), a, d, s, s')
  {
    HasTasksSame(a.id, s1, s');
    if HasTasksOf(a.id, s) {
      HasTasksStill(a.id, s, s1);
    }
  }

  lemma HasTasksStill(aid: nat, s: State, s': State)
    requires HasTasksOf(aid, s) && Evolves(s, s')
    ensures HasTasksOf(aid, s')
  {
    var t :| t in s.tasks && s.tasks[t].operationId in s.operations
             && s.operations[s.tasks[t].operationId].approvalId == Some(aid);
    assert SameTask(s'.tasks[t], s.tasks[t]);
    assert SameOperation(s'.operations[s.tasks[t].operationId], s.operations[s.tasks[t].operationId]);
  }

  /** Resumes once more, under the lock that p holds or takes for it. */
  method ResumeAgain(session: Session, p: Pid, user: Identity, a: Approval, d: Decision, locked: bool,
                     agent: nat -> AgentReply, ghost origin: State)
    returns (r: DecideOutcome)
    requires session.Settled() && origin == session.S() && InHand(a, session.S()) && a.status == StatusOf(d)
    requires locked <==> Holds(p, session.S())
    modifies session
    ensures session.Settled() && Evolves(origin, session.S()) && (locked <==> Holds(p, session.S()))
    ensures locked ==> session.S().lock == old(session.S()).lock
    ensures Acted(p, a.id, d, old(session.S()), session.S()) && Truthful(r, a.id, d, session.S())
    ensures r.RunLocked? <==> !locked && old(session.S()).lock.Some?
    ensures r.RunLocked? ==> session.S() == old(session.S())
    ensures !r.RunLocked? ==>
              && session.S().resumes == old(session.S()).resumes + Resumption(p, a, d)
              && AnswerFollows(r, agent(a.id), NoPending(old(session.S())), user, old(session.S()).now, session.S().now)
  {
    hide *;
    ghost var s1 := session.S();
    EvolvesReflexive(s1);
    if locked {
      r := ResumeLocked(session, p, user, a, d, agent, s1);
      AnswerKinds(r, agent(a.id), NoPending(s1), user, s1.now, session.S().now);
      HoldsToo(p, s1, session.S());
      return;
    }
    var acquired := session.TryAcquireRunLock(p, s1);
    if !acquired {
      QuietSame(p, s1, s1);
      ActedQuietly(p, a.id, d, s1, s1);
      NothingSaid(RunLocked, a.id, d, session.S());
      return RunLocked;
    }
    ghost var s2 := session.S();
    InHandLocked(a, s1, s2);
    EvolvesReflexive(s2);
    NonePendingLocked(s1, s2);
    r := ResumeLocked(session, p, user, a, d, agent, s2);
    AnswerKinds(r, agent(a.id), NoPending(s1), user, s1.now, session.S().now);
    ghost var s3 := session.S();
    HoldsToo(p, s2, s3);
    session.ReleaseRunLock(p, s2);
    TruthfulUnlocked(r, a.id, d, s3, session.S());
    ActedUnlocked(p, a.id, d, s1, s2, s3, session.S());
    EvolvesUnlocked(s1, s2, session.S());
  }

  lemma NonePendingLocked(s: State, s': State)
    requires s'.approvals == s.approvals
    ensures NoPending(s) <==> NoPending(s')
  {
  }

  lemma LockSteady(p: Pid, s: State, s': State)
    requires Rely(p, s, s') && Holds(p, s)
    ensures s'.lock == s.lock && WaitingKept(s.approvals, s'.approvals) && s'.resumes == s.resumes
    ensures s'.operations.Keys == s.operations.Keys
  {
    hide Inv;
  }

  lemma EvolvesUnlocked(s1: State, s2: State, s: State)
    requires s2 == s1.(lock := s2.lock) && Evolves(s2, s)
    ensures Evolves(s1, s)
  {
  }

  lemma ActedUnlocked(p: Pid, aid: nat, d: Decision, s: State, s2: State, s3: State, s4: State)
    requires Acted(p, aid, d, s2, s3) && s2.writes == s.writes && s4.writes == s3.writes && s4.approvals == s3.approvals
    ensures Acted(p, aid, d, s, s4)
  {
  }

  lemma ConflictTruthful(aid: nat, d: Decision, s: State)
    requires aid in s.approvals && !s.approvals[aid].status.Pending? && s.approvals[aid].status != StatusOf(d)
    ensures Truthful(DecisionConflict, aid, d, s)
  {
  }

  lemma NothingSaid(r: DecideOutcome, aid: nat, d: Decision, s: State)
    requires r.NotFound? || r.Forbidden? || r.RunLocked?
    ensures Truthful(r, aid, d, s)
  {
  }

  lemma HandledTruthful(a: Approval, b: Approval, d: Decision, s: State)
    requires InHand(b, s) && b.id == a.id && b.status == StatusOf(d)
    ensures Truthful(Handled(b, None), a.id, d, s)
  {
  }

  // ---------------------------------------------------------------- a first decision

  function KeyOf(call: ToolCall): ConflictKey { BuildConflictKey(call.action, [call.args.target]) }

  /** No two asynchronous calls ask for the same, and none asks for what is still under way. */
  predicate NoTaskConflicts(calls: seq<ToolCall>, tasks: map<nat, Task>)
  {
    && (forall j, k :: 0 <= j < k < |calls| && IsAsync(calls[j].action) && IsAsync(calls[k].action) ==>
                         KeyOf(calls[j]) != KeyOf(calls[k]))
    && (forall j :: 0 <= j < |calls| && IsAsync(calls[j].action) ==> NoConflict(KeyOf(calls[j]), tasks))
  }

  lemma PrefixConflicts(calls: seq<ToolCall>, i: nat, seen: set<ConflictKey>, tasks: map<nat, Task>)
    requires i < |calls| && NoTaskConflicts(calls[..i], tasks)
    requires forall k :: k in seen <==> exists j :: 0 <= j < i && IsAsync(calls[j].action) && KeyOf(calls[j]) == k
    ensures !IsAsync(calls[i].action) ==> NoTaskConflicts(calls[..i + 1], tasks)
    ensures IsAsync(calls[i].action) ==>
              (NoTaskConflicts(calls[..i + 1], tasks)
               <==> KeyOf(calls[i]) !in seen && NoConflict(KeyOf(calls[i]), tasks))
  {
    hide NoConflict, BuildConflictKey;
    var shorter, longer := calls[..i], calls[..i + 1];
    assert forall j :: 0 <= j < i ==> longer[j] == shorter[j] == calls[j];
    assert longer[i] == calls[i];
  }

  lemma MoreConflicts(calls: seq<ToolCall>, i: nat, tasks: map<nat, Task>)
    requires i <= |calls| && !NoTaskConflicts(calls[..i], tasks)
    ensures !NoTaskConflicts(calls, tasks)
  {
    assert forall j :: 0 <= j < i ==> calls[..i][j] == calls[j];
  }

  /** `_assert_no_task_conflicts`. Under the run lock task refreshes cannot make a conflict appear, so the
      answer is still good at the end of the loop. */
  method AssertNoTaskConflicts(session: Session, calls: seq<ToolCall>) returns (ok: bool)
    ensures ok <==> NoTaskConflicts(calls, session.S().tasks)
  {
    hide NoConflict, BuildConflictKey;
    ghost var tasks := session.S().tasks;
    var seen: set<ConflictKey> := {};
    for i := 0 to |calls|
      invariant forall k :: k in seen <==> exists j :: 0 <= j < i && IsAsync(calls[j].action) && KeyOf(calls[j]) == k
      invariant NoTaskConflicts(calls[..i], tasks)
    {
      PrefixConflicts(calls, i, seen, tasks);
      if IsAsync(calls[i].action) {
        var key := BuildConflictKey(calls[i].action, [calls[i].args.target]);
        var conflict: Option<Task> := None;
        if key !in seen {
          conflict := FindConflictingTask(session, key);
        }
        if key in seen || conflict.Some? {
          MoreConflicts(calls, i + 1, tasks);
          return false;
        }
        seen := seen + {key};
      }
    }
    assert calls[..|calls|] == calls;
    return true;
  }

  /** A decision as it was taken: the state in which the expiry was looked at, and the one that the decision
      was recorded in. */
  datatype Moment = Moment(checked: State, recorded: State)

  /** p held the run lock throughout; the approval was waiting and had time left when its expiry was looked at,
      and still waited when the decision was recorded; approving it would conflict with nothing. */
  predicate DecisionMoment(p: Pid, at: Moment, aid: nat, d: Decision, user: Identity)
  {
    && HadTimeLeft(p, at.checked, aid) && Decidable(p, at.recorded, aid, d, user)
    && Evolves(at.checked, at.recorded) && at.recorded.lock == at.checked.lock
    && at.recorded.approvals[aid] == at.checked.approvals[aid]
  }

  predicate HadTimeLeft(p: Pid, s: State, aid: nat)
  {
    Holds(p, s) && aid in s.approvals && s.approvals[aid].status.Pending? && !IsExpired(s.approvals[aid], s.now)
  }

  predicate Decidable(p: Pid, s: State, aid: nat, d: Decision, user: Identity)
  {
    && Holds(p, s) && aid in s.approvals && s.approvals[aid].status.Pending?
    && (s.approvals[aid].adminOnly ==> user.admin)
    && (d == Approve ==> NoTaskConflicts(s.approvals[aid].calls, s.tasks))
  }

  lemma DecisionEnabled(p: Pid, s0: State, s: State, aid: nat, d: Decision, user: Identity)
    requires Inv(s0) && Holds(p, s0) && aid in s0.approvals && s0.approvals[aid].status.Pending?
    requires !IsExpired(s0.approvals[aid], s0.now) && (s0.approvals[aid].adminOnly ==> user.admin)
    requires Rely(p, s0, s)
    ensures aid in s.approvals && s.approvals[aid] == s0.approvals[aid]
    ensures var b := Decided(s0.approvals[aid], d, user, s.now);
            var step := ApprovalDecided(aid, d, user, s0.now);
            && b.id == aid && Enabled(p, s, step)
            && Apply(p, s, step) == s.(approvals := s.approvals[b.id := b], checks := s.checks[aid := s0.now])
            && InHand(b, s.(approvals := s.approvals[b.id := b], checks := s.checks[aid := s0.now]))
  {
  }

  lemma ConflictsKept(p: Pid, s: State, s': State, calls: seq<ToolCall>)
    requires Holds(p, s) && Rely(p, s, s') && NoTaskConflicts(calls, s.tasks)
    ensures NoTaskConflicts(calls, s'.tasks)
  {
    hide Inv;
    assert forall t :: t in s'.tasks ==> SameTask(s'.tasks[t], s.tasks[t]);
  }

  /** Appends the decision. checked is the state in which the expiry was looked at. */
  method AppendDecision(session: Session, p: Pid, user: Identity, latest: Approval, d: Decision, checkedAt: Time,
                        ghost checked: State, ghost origin: State)
    returns (decided: Approval)
    requires session.Settled() && Evolves(origin, session.S()) && Rely(p, checked, session.S())
    requires Inv(checked) && Holds(p, checked) && checkedAt == checked.now
    requires latest.id in checked.approvals && checked.approvals[latest.id] == latest && latest.status.Pending?
    requires !IsExpired(latest, checkedAt) && (latest.adminOnly ==> user.admin)
    modifies session
    ensures session.Settled() && Evolves(origin, session.S()) && InHand(decided, session.S())
    ensures decided == Decided(latest, d, user, old(session.S()).now)
    ensures session.S() == old(session.S()).(approvals := old(session.S()).approvals[latest.id := decided],
                                             checks := old(session.S()).checks[latest.id := checkedAt])
  {
    hide Inv, Evolves, Rely, InHand, Enabled, Apply;
    DecisionEnabled(p, checked, session.S(), latest.id, d, user);
    decided := latest.(status := StatusOf(d), decidedBy := Some(user), decidedAt := Some(session.now),
                       resume := ResumeInfo(false, None, None));
    session.AppendApproval(decided);
    session.checks := session.checks[latest.id := checkedAt];
    session.Commit(p, ApprovalDecided(latest.id, d, user, checkedAt), origin);
  }

  lemma DecidedIs(a: Approval, d: Decision, user: Identity, now: Time)
    ensures var b := Decided(a, d, user, now);
            b.id == a.id && b.status == StatusOf(d) && b.decidedBy == Some(user) && b.decidedAt == Some(now)
  {
  }

  /** Once the one that waited is decided, nothing waits. */
  lemma NothingElseWaits(checked: State, p: Pid, s: State, a: Approval, b: Approval, s': State)
    requires Inv(checked) && Holds(p, checked) && Rely(p, checked, s)
    requires a.id in checked.approvals && checked.approvals[a.id].status.Pending? && !b.status.Pending?
    requires s'.approvals == s.approvals[a.id := b]
    ensures NoPending(s')
  {
    assert ApprovalsOk(s);
  }

  /** Records the decision and resumes the agent. */
  method RecordDecision(session: Session, p: Pid, user: Identity, latest: Approval, d: Decision, checkedAt: Time,
                        agent: nat -> AgentReply, ghost checked: State, ghost origin: State)
    returns (r: DecideOutcome)
    requires session.Settled() && Evolves(origin, session.S()) && Rely(p, checked, session.S())
    requires Inv(checked) && Holds(p, checked) && Holds(p, session.S()) && checkedAt == checked.now
    requires latest.id in checked.approvals && checked.approvals[latest.id] == latest && latest.status.Pending?
    requires !IsExpired(latest, checkedAt) && (latest.adminOnly ==> user.admin)
    modifies session
    ensures session.Settled() && Evolves(origin, session.S()) && session.S().lock == old(session.S()).lock
    ensures Acted(p, latest.id, d, old(session.S()), session.S()) && Truthful(r, latest.id, d, session.S())
    ensures session.S().resumes == old(session.S()).resumes + Resumption(p, latest, d)
    ensures AnswerFollows(r, agent(latest.id), true, user, old(session.S()).now, session.S().now)
    ensures DecisionRecorded(latest.id, d, user, old(session.S()).now, session.S())
  {
    hide *;
    ghost var s := session.S();
    var decided := AppendDecision(session, p, user, latest, d, checkedAt, checked, origin);
    ghost var s1 := session.S();
    DecidedIs(latest, d, user, s.now);
    ApprovedAs(decided, d);
    NothingElseWaits(checked, p, s, latest, decided, s1);
    SameResumption(p, latest, decided, d);
    HoldsToo(p, s, s1);
    EvolvesReflexive(s1);
    r := ResumeLocked(session, p, user, decided, d, agent, s1);
    EvolvesTransitive(origin, s1, session.S());
    InHandKept(decided, s1, session.S());
    RecordedMeans(decided, d, user, session.S());
    ActedFrom(p, latest.id, d, s, s1, session.S());
  }

  predicate DecisionRecorded(aid: nat, d: Decision, user: Identity, at: Time, s: State)
  {
    && aid in s.approvals && s.approvals[aid].status == StatusOf(d)
    && s.approvals[aid].decidedBy == Some(user) && s.approvals[aid].decidedAt == Some(at)
  }

  lemma RecordedMeans(a: Approval, d: Decision, user: Identity, s: State)
    requires InHand(a, s) && a.status == StatusOf(d) && a.decidedBy == Some(user) && a.decidedAt.Some?
    ensures DecisionRecorded(a.id, d, user, a.decidedAt.value, s)
  {
  }

  lemma ActedFrom(p: Pid, aid: nat, d: Decision, s: State, s1: State, s2: State)
    requires Acted(p, aid, d, s1, s2) && s1.writes == s.writes
    ensures Acted(p, aid, d, s, s2)
  {
  }

  lemma TooLateTruthful(a: Approval, d: Decision, s: State)
    requires InHand(a, s) && a.status.Expired?
    ensures Truthful(TooLate(a), a.id, d, s)
  {
  }

  /** What the part of `decide` under the run lock does to an approval that still waits: it expires it,
      refuses over a task conflict, or records the decision. at is when. */
  predicate DecidedOrNot(p: Pid, aid: nat, d: Decision, user: Identity, s: State, r: DecideOutcome,
                          at: Option<Moment>, s': State)
  {
    && (at.Some? ==> DecisionMoment(p, at.value, aid, d, user) && Evolves(s, at.value.checked)
                     && DecisionRecorded(aid, d, user, at.value.recorded.now, s'))
    && (aid in s.approvals && s.approvals[aid].status.Pending? ==>
          && (at.None? <==> r.TooLate? || r.TaskConflict?)
          && (IsExpired(s.approvals[aid], s.now) ==> r.TooLate?)
          && (r.TooLate? ==> IsExpired(s.approvals[aid], s'.now))
          && (r.TaskConflict? ==> !NoTaskConflicts(s.approvals[aid].calls, s.tasks)))
    && (aid in s.approvals && !s.approvals[aid].status.Pending? ==> at.None?)
  }

  /** The answer of `decide` under the lock, and what it sets the agent to do, for every state s of the session:
      an overdue approval is expired, one that waits is decided unless a task is in the way, and one that was
      settled before is answered for as it was settled. */
  predicate LockedAnswer(p: Pid, aid: nat, d: Decision, user: Identity, reply: AgentReply, s: State, r: DecideOutcome,
                         decided: bool, s': State)
  {
    aid in s.approvals
    && var a := s.approvals[aid];
       var decides := a.status.Pending? && !IsExpired(a, s.now)
                      && (d == Approve ==> NoTaskConflicts(a.calls, s.tasks));
       var resumes := if decides || ResumeDue(a, d, s) then Resumption(p, a, d) else CleanupOf(p, a, s.now);
       && s'.resumes == s.resumes + resumes && (decided <==> decides)
       && (r.TooLate? <==> a.status.Expired? || (a.status.Pending? && IsExpired(a, s.now)))
       && (r.TaskConflict? <==> a.status.Pending? && !IsExpired(a, s.now) && !decides)
       && (r.DecisionConflict? <==> (a.status.Approved? || a.status.Rejected?) && a.status != StatusOf(d))
       && (decides ==> AnswerFollows(r, reply, true, user, s.now, s'.now))
       && (ResumeDue(a, d, s) ==> AnswerFollows(r, reply, NoPending(s), user, s.now, s'.now))
       && (a.status == StatusOf(d) && !ResumeDue(a, d, s) ==> r.Handled? && r.next.None?)
  }

  /** The cases in which `decide`, under the lock, finds that the approval no longer waits. */
  method DecideSettled(session: Session, p: Pid, user: Identity, latest: Approval, d: Decision,
                       agent: nat -> AgentReply, ghost origin: State)
    returns (r: DecideOutcome)
    requires session.Settled() && Evolves(origin, session.S()) && Holds(p, session.S())
    requires InHand(latest, session.S()) && session.S().approvals[latest.id] == latest
    modifies session
    ensures session.Settled() && Evolves(origin, session.S()) && session.S().lock == old(session.S()).lock
    ensures Acted(p, latest.id, d, old(session.S()), session.S()) && Truthful(r, latest.id, d, session.S())
    ensures LockedAnswer(p, latest.id, d, user, agent(latest.id), old(session.S()), r, false, session.S())
  {
    hide *;
    ghost var s := session.S();
    EvolvesReflexive(s);
    StatusInLog(latest, d, s);
    CleanupCases(p, latest, s.now);
    assert s.resumes + [] == s.resumes;
    if latest.status.Expired? {
      var shown := latest;
      if latest.resume.failed {
        shown := ResumeExpiredCleanup(session, p, user, latest, agent, s);
        EvolvesTransitive(origin, s, session.S());
        ResumedCopy(latest, shown, s, session.S());
      }
      QuietSame(p, s, session.S());
      ActedQuietly(p, latest.id, d, s, session.S());
      TooLateTruthful(shown, d, session.S());
      ExpiredAnswer(p, latest, d, user, agent(latest.id), s, shown, session.S());
      return TooLate(shown);
    }
    ghost var seen: State;
    r, seen := HandleTerminalDecision(session, p, user, latest, d, true, agent, s);
    EvolvesTransitive(origin, s, session.S());
    TimeGrows(s, seen);
    NonePendingKept(s, seen);
    AgainAnswer(p, latest, d, user, agent(latest.id), s, seen, r, session.S());
  }

  lemma ExpiredAnswer(p: Pid, a: Approval, d: Decision, user: Identity, reply: AgentReply, s: State, shown: Approval,
                      s': State)
    requires a.id in s.approvals && s.approvals[a.id] == a && a.status.Expired?
    requires s'.resumes == s.resumes + if a.resume.failed then Resumption(p, a, Reject) else []
    ensures LockedAnswer(p, a.id, d, user, reply, s, TooLate(shown), false, s')
  {
    hide Resumption;
  }

  lemma AgainAnswer(p: Pid, a: Approval, d: Decision, user: Identity, reply: AgentReply, s: State, seen: State,
                    r: DecideOutcome, s': State)
    requires a.id in s.approvals && s.approvals[a.id] == a && (a.status.Approved? || a.status.Rejected?)
    requires seen.resumes == s.resumes && s.now <= seen.now && (NoPending(s) <==> NoPending(seen))
    requires ResumeDue(a, d, s) ==>
               s'.resumes == seen.resumes + Resumption(p, a, d)
               && AnswerFollows(r, reply, NoPending(seen), user, seen.now, s'.now)
    requires !ResumeDue(a, d, s) ==> s'.resumes == seen.resumes && AnsweredAgain(r, a, d, s, s')
    ensures LockedAnswer(p, a.id, d, user, reply, s, r, false, s')
  {
    hide Resumption, HasOperations, HasTasksOf, NoPending, AsksForNext, WellFormed, Requested;
    assert s.resumes + [] == s.resumes;
    if ResumeDue(a, d, s) {
      AnswerSince(r, reply, NoPending(seen), user, s.now, seen.now, s'.now);
    }
  }

  lemma ResumedCopy(a: Approval, b: Approval, s: State, s': State)
    requires InHand(a, s) && InHand(b, s') && b.id == a.id && Evolves(s, s')
    ensures b.status == a.status
  {
  }

  lemma CaseSettled(p: Pid, aid: nat, d: Decision, user: Identity, s: State, r: DecideOutcome, s': State)
    requires aid in s.approvals && !s.approvals[aid].status.Pending?
    ensures DecidedOrNot(p, aid, d, user, s, r, None, s')
  {
  }

  lemma CaseTooLate(p: Pid, aid: nat, d: Decision, user: Identity, s: State, a: Approval, s': State)
    requires aid in s.approvals && IsExpired(s.approvals[aid], s.now) && Evolves(s, s')
    ensures DecidedOrNot(p, aid, d, user, s, TooLate(a), None, s')
  {
  }

  lemma CaseConflict(p: Pid, aid: nat, d: Decision, user: Identity, s: State)
    requires aid in s.approvals && s.approvals[aid].status.Pending? && !IsExpired(s.approvals[aid], s.now)
    requires !NoTaskConflicts(s.approvals[aid].calls, s.tasks)
    ensures DecidedOrNot(p, aid, d, user, s, TaskConflict, None, s) && Truthful(TaskConflict, aid, Approve, s)
    ensures Acted(p, aid, d, s, s)
  {
  }

  lemma CaseRecorded(p: Pid, aid: nat, d: Decision, user: Identity, s: State, s1: State, r: DecideOutcome, s': State)
    requires HadTimeLeft(p, s, aid) && DecisionMoment(p, Moment(s, s1), aid, d, user) && Evolves(s, s)
    requires DecisionRecorded(aid, d, user, s1.now, s') && !r.TooLate? && !r.TaskConflict?
    ensures DecidedOrNot(p, aid, d, user, s, r, Some(Moment(s, s1)), s')
  {
  }

  lemma MomentKept(p: Pid, s: State, s': State, aid: nat, d: Decision, user: Identity)
    requires HadTimeLeft(p, s, aid) && Decidable(p, s, aid, d, user) && Rely(p, s, s')
    ensures DecisionMoment(p, Moment(s, s'), aid, d, user) && s'.lock == s.lock && s'.writes == s.writes
  {
    hide Inv, NoTaskConflicts;
    if d == Approve {
      ConflictsKept(p, s, s', s.approvals[aid].calls);
    }
  }

  /** `decide` under the run lock, for an approval that waits and has time left. */
  method DecideWaiting(session: Session, p: Pid, user: Identity, latest: Approval, d: Decision,
                       agent: nat -> AgentReply, ghost origin: State)
    returns (r: DecideOutcome, ghost at: Option<Moment>)
    requires session.Settled() && Evolves(origin, session.S()) && Holds(p, session.S())
    requires latest.id in session.S().approvals && session.S().approvals[latest.id] == latest && latest.status.Pending?
    requires !IsExpired(latest, session.S().now) && (latest.adminOnly ==> user.admin)
    modifies session
    ensures session.Settled() && Evolves(origin, session.S()) && session.S().lock == old(session.S()).lock
    ensures Acted(p, latest.id, d, old(session.S()), session.S()) && Truthful(r, latest.id, d, session.S())
    ensures DecidedOrNot(p, latest.id, d, user, old(session.S()), r, at, session.S())
    ensures LockedAnswer(p, latest.id, d, user, agent(latest.id), old(session.S()), r, at.Some?, session.S())
  {
    hide *;
    ghost var s := session.S();
    session.SettledMeans();
    var checkedAt := Clock(session);
    WaitingIsNotDue(latest, d, s);
    EvolvesReflexive(s);
    if d == Approve {
      var free := AssertNoTaskConflicts(session, latest.calls);
      if !free {
        CaseConflict(p, latest.id, d, user, s);
        ConflictAnswer(p, latest, d, user, agent(latest.id), s);
        return TaskConflict, None;
      }
    }
    Fit(p, latest, d, user, s);
    session.Interfere(p, s);
    ghost var s1 := session.S();
    MomentKept(p, s, s1, latest.id, d, user);
    RelyMeans(p, s, s1);
    LockSteady(p, s, s1);
    TimeGrows(s, s1);
    HoldsToo(p, s, s1);
    at := Some(Moment(s, s1));
    EvolvesReflexive(s1);
    r := RecordDecision(session, p, user, latest, d, checkedAt, agent, s, s1);
    EvolvesTransitive(origin, s, s1);
    EvolvesTransitive(origin, s1, session.S());
    ActedFrom(p, latest.id, d, s, s1, session.S());
    AnswerKinds(r, agent(latest.id), true, user, s1.now, session.S().now);
    CaseRecorded(p, latest.id, d, user, s, s1, r, session.S());
    DecidedAnswer(p, latest, d, user, agent(latest.id), s, s1.now, r, session.S());
  }

  method Clock(session: Session) returns (now: Time)
    ensures now == session.S().now
  {
    now := session.now;
  }

  lemma WaitingIsNotDue(a: Approval, d: Decision, s: State)
    requires a.status.Pending?
    ensures !ResumeDue(a, d, s) && a.status != StatusOf(d)
  {
  }

  lemma Fit(p: Pid, a: Approval, d: Decision, user: Identity, s: State)
    requires Holds(p, s) && a.id in s.approvals && s.approvals[a.id] == a && a.status.Pending?
    requires !IsExpired(a, s.now) && (a.adminOnly ==> user.admin)
    requires d == Approve ==> NoTaskConflicts(a.calls, s.tasks)
    ensures HadTimeLeft(p, s, a.id) && Decidable(p, s, a.id, d, user)
  {
  }

  lemma ConflictAnswer(p: Pid, a: Approval, d: Decision, user: Identity, reply: AgentReply, s: State)
    requires a.id in s.approvals && s.approvals[a.id] == a && a.status.Pending? && !IsExpired(a, s.now)
    requires d == Approve && !NoTaskConflicts(a.calls, s.tasks)
    ensures LockedAnswer(p, a.id, d, user, reply, s, TaskConflict, false, s)
  {
    hide NoTaskConflicts, IsExpired;
    assert s.resumes + [] == s.resumes;
  }

  lemma DecidedAnswer(p: Pid, a: Approval, d: Decision, user: Identity, reply: AgentReply, s: State, later: Time,
                      r: DecideOutcome, s': State)
    requires a.id in s.approvals && s.approvals[a.id] == a && a.status.Pending? && !IsExpired(a, s.now)
    requires d == Approve ==> NoTaskConflicts(a.calls, s.tasks)
    requires s'.resumes == s.resumes + Resumption(p, a, d) && s.now <= later
    requires AnswerFollows(r, reply, true, user, later, s'.now)
    ensures LockedAnswer(p, a.id, d, user, reply, s, r, true, s')
  {
    hide NoTaskConflicts, IsExpired, Resumption, AsksForNext, WellFormed, Requested;
    AnswerSince(r, reply, true, user, s.now, later, s'.now);
  }

  lemma OverdueAnswer(p: Pid, a: Approval, d: Decision, user: Identity, reply: AgentReply, s: State, shown: Approval,
                      s': State)
    requires a.id in s.approvals && s.approvals[a.id] == a && a.status.Pending? && IsExpired(a, s.now)
    requires s'.resumes == s.resumes + Resumption(p, a, Reject)
    ensures LockedAnswer(p, a.id, d, user, reply, s, TooLate(shown), false, s')
  {
    hide IsExpired, Resumption;
  }

  /** `decide` under the run lock. */
  method DecideLocked(session: Session, p: Pid, user: Identity, aid: nat, d: Decision, agent: nat -> AgentReply,
                      ghost origin: State)
    returns (r: DecideOutcome, ghost at: Option<Moment>)
    requires session.Settled() && Evolves(origin, session.S()) && Holds(p, session.S())
    requires aid in session.S().approvals && (session.S().approvals[aid].adminOnly ==> user.admin)
    modifies session
    ensures session.Settled() && Evolves(origin, session.S()) && session.S().lock == old(session.S()).lock
    ensures Acted(p, aid, d, old(session.S()), session.S()) && Truthful(r, aid, d, session.S())
    ensures DecidedOrNot(p, aid, d, user, old(session.S()), r, at, session.S())
    ensures LockedAnswer(p, aid, d, user, agent(aid), old(session.S()), r, at.Some?, session.S())
  {
    hide *;
    ghost var s := session.S();
    session.SettledMeans();
    CurrentInHand(s, aid);
    EvolvesReflexive(s);
    at := None;
    var found := session.FindApproval(aid);
    var latest := found.value;
    var now := Clock(session);
    if !latest.status.Pending? {
      r := DecideSettled(session, p, user, latest, d, agent, origin);
      CaseSettled(p, aid, d, user, s, r, session.S());
    } else if IsExpired(latest, now) {
      var expired := ExpireAndResume(session, p, user, latest, agent, s);
      EvolvesTransitive(origin, s, session.S());
      QuietSame(p, s, session.S());
      ActedQuietly(p, aid, d, s, session.S());
      TooLateTruthful(expired, d, session.S());
      CaseTooLate(p, aid, d, user, s, expired, session.S());
      OverdueAnswer(p, latest, d, user, agent(aid), s, expired, session.S());
      r := TooLate(expired);
    } else {
      r, at := DecideWaiting(session, p, user, latest, d, agent, origin);
    }
  }

  /** The approval stays known, with the role it calls for. */
  lemma RoleKept(s: State, s': State, aid: nat)
    requires Evolves(s, s') && aid in s.approvals
    ensures aid in s'.approvals && s'.approvals[aid].adminOnly == s.approvals[aid].adminOnly
  {
  }

  lemma AtSince(p: Pid, aid: nat, d: Decision, user: Identity, s: State, s1: State, r: DecideOutcome,
                at: Option<Moment>, s2: State, s': State)
    requires DecidedOrNot(p, aid, d, user, s1, r, at, s2) && Evolves(s, s1) && s'.approvals == s2.approvals
    ensures at.Some? ==> DecisionMoment(p, at.value, aid, d, user) && Evolves(s, at.value.checked)
                         && DecisionRecorded(aid, d, user, at.value.recorded.now, s')
  {
    if at.Some? {
      EvolvesTransitive(s, s1, at.value.checked);
    }
  }

  /** The lock has to be tried for this approval, as it was found without it: it waits, or its agent has still
      to be told. */
  predicate NeedsLock(a: Approval, d: Decision, s: State)
  {
    a.status.Pending? || (a.status.Expired? && a.resume.failed) || ResumeDue(a, d, s)
  }

  /** The answer for an approval that was settled when it was looked at without the lock, in s; seen is the state
      in which the lock was tried, if it was. */
  predicate SettledAnswer(p: Pid, a: Approval, d: Decision, user: Identity, reply: AgentReply, s: State, seen: State,
                          r: DecideOutcome, s': State)
  {
    && (r.RunLocked? <==> NeedsLock(a, d, s) && seen.lock.Some?) && (r.RunLocked? ==> s' == seen)
    && (!NeedsLock(a, d, s) ==> s'.resumes == seen.resumes)
    && (!r.RunLocked? ==>
          && (r.TooLate? <==> a.status.Expired?)
          && (a.status.Expired? && a.resume.failed ==>
                a.id in seen.approvals
                && s'.resumes == seen.resumes
                                 + if seen.approvals[a.id].resume.failed then Resumption(p, a, Reject) else [])
          && (ResumeDue(a, d, s) ==> s'.resumes == seen.resumes + Resumption(p, a, d)
                                     && AnswerFollows(r, reply, NoPending(seen), user, seen.now, s'.now))
          && (!a.status.Expired? && !ResumeDue(a, d, s) ==> AnsweredAgain(r, a, d, s, s')))
  }

  /** The part of `decide` that needs no lock: the approval in hand no longer waits. */
  method AnswerSettled(session: Session, p: Pid, user: Identity, a: Approval, d: Decision, agent: nat -> AgentReply)
    returns (r: DecideOutcome, ghost seen: State)
    requires session.Settled() && !Holds(p, session.S()) && InHand(a, session.S())
    modifies session
    ensures session.Settled() && !Holds(p, session.S()) && Evolves(old(session.S()), session.S())
    ensures Truthful(r, a.id, d, session.S()) && Acted(p, a.id, d, old(session.S()), session.S())
    ensures Evolves(old(session.S()), seen) && Evolves(seen, session.S()) && Idle(p, old(session.S()), seen)
    ensures SettledAnswer(p, a, d, user, agent(a.id), old(session.S()), seen, r, session.S())
    ensures !r.NotFound? && !r.Forbidden?
  {
    hide *;
    ghost var s := session.S();
    EvolvesReflexive(s);
    IdleSame(p, s, s);
    StatusInLog(a, d, s);
    if !a.status.Expired? {
      r, seen := HandleTerminalDecision(session, p, user, a, d, false, agent, s);
      SettledAgain(p, a, d, user, agent(a.id), s, seen, r, session.S());
      return;
    }
    QuietSame(p, s, s);
    ActedQuietly(p, a.id, d, s, s);
    if !a.resume.failed {
      TooLateTruthful(a, d, s);
      SettledClean(p, a, d, user, agent(a.id), s);
      return TooLate(a), s;
    }
    var shown: Option<Approval>;
    shown, seen := ResumeExpiredCleanupWithLock(session, p, user, a, agent, s);
    ActedQuietly(p, a.id, d, s, session.S());
    SettledExpired(p, a, d, user, agent(a.id), s, seen, shown, session.S());
    if shown.None? {
      NothingSaid(RunLocked, a.id, d, session.S());
      return RunLocked, seen;
    }
    ResumedCopy(a, shown.value, s, session.S());
    TooLateTruthful(shown.value, d, session.S());
    r := TooLate(shown.value);
  }

  lemma SettledAgain(p: Pid, a: Approval, d: Decision, user: Identity, reply: AgentReply, s: State, seen: State,
                     r: DecideOutcome, s': State)
    requires a.status.Approved? || a.status.Rejected?
    requires (r.RunLocked? <==> ResumeDue(a, d, s) && seen.lock.Some?) && (r.RunLocked? ==> s' == seen)
    requires ResumeDue(a, d, s) && !r.RunLocked? ==>
               s'.resumes == seen.resumes + Resumption(p, a, d)
               && AnswerFollows(r, reply, NoPending(seen), user, seen.now, s'.now)
    requires !ResumeDue(a, d, s) || r.RunLocked? ==> s'.resumes == seen.resumes
    requires !ResumeDue(a, d, s) ==> AnsweredAgain(r, a, d, s, s')
    ensures SettledAnswer(p, a, d, user, reply, s, seen, r, s') && !r.NotFound? && !r.Forbidden?
  {
    hide ResumeDue, Resumption, AsksForNext, WellFormed, Requested, HasTasksOf, NoPending;
  }

  lemma SettledClean(p: Pid, a: Approval, d: Decision, user: Identity, reply: AgentReply, s: State)
    requires a.status.Expired? && !a.resume.failed
    ensures SettledAnswer(p, a, d, user, reply, s, s, TooLate(a), s)
  {
  }

  lemma SettledExpired(p: Pid, a: Approval, d: Decision, user: Identity, reply: AgentReply, s: State, seen: State,
                       shown: Option<Approval>, s': State)
    requires a.status.Expired? && a.resume.failed
    requires (shown.None? <==> seen.lock.Some?) && (shown.None? ==> s' == seen)
    requires shown.Some? ==>
               a.id in seen.approvals
               && s'.resumes == seen.resumes
                                + if seen.approvals[a.id].resume.failed then Resumption(p, a, Reject) else []
    ensures SettledAnswer(p, a, d, user, reply, s, seen,
                          if shown.None? then RunLocked else TooLate(shown.value), s')
  {
    hide Resumption;
  }

  /** `decide`. The first look is taken without the lock, so everything it finds may be out of date when the
      lock is obtained; what the call says is nevertheless true when it returns, it sends nothing unless it
      approves, and if it records a decision (at says when) the approval was then fit to be decided: it had time
      left when p looked, holding the lock, and still waited when the decision was recorded. What it says follows
      from the state in which the lock was tried (seen) and from the agent's reply. */
  method Decide(session: Session, p: Pid, user: Identity, aid: nat, d: Decision, agent: nat -> AgentReply)
    returns (r: DecideOutcome, ghost at: Option<Moment>, ghost seen: State)
    requires session.Settled() && !Holds(p, session.S())
    modifies session
    ensures session.Settled() && !Holds(p, session.S()) && Evolves(old(session.S()), session.S())
    ensures r.NotFound? <==> aid !in old(session.S()).approvals
    ensures r.Forbidden? <==> aid in old(session.S()).approvals && old(session.S()).approvals[aid].adminOnly
                              && !user.admin
    ensures Truthful(r, aid, d, session.S()) && Acted(p, aid, d, old(session.S()), session.S())
    ensures at.Some? ==> DecisionMoment(p, at.value, aid, d, user) && Evolves(old(session.S()), at.value.checked)
                         && DecisionRecorded(aid, d, user, at.value.recorded.now, session.S())
    ensures aid in old(session.S()).approvals && !old(session.S()).approvals[aid].status.Pending? ==> at.None?
    // the lock is tried exactly if it is needed, and a refusal over it means that it was taken
    ensures Evolves(old(session.S()), seen) && Evolves(seen, session.S()) && Idle(p, old(session.S()), seen)
    ensures r.RunLocked? ==> NeedsLock(old(session.S()).approvals[aid], d, old(session.S())) && at.None?
                             && session.S() == seen && seen.lock.Some?
    // an approval that waited at first is answered for as the lock's holder finds it
    ensures Known(old(session.S()), aid, user) && old(session.S()).approvals[aid].status.Pending? ==>
              if seen.lock.Some? then r.RunLocked?
              else LockedAnswer(p, aid, d, user, agent(aid), seen, r, at.Some?, session.S())
    // one that did not, for what it was settled to
    ensures Known(old(session.S()), aid, user) && !old(session.S()).approvals[aid].status.Pending? ==>
              SettledAnswer(p, old(session.S()).approvals[aid], d, user, agent(aid), old(session.S()), seen, r,
                            session.S())
  {
    hide *;
    ghost var s := session.S();
    at, seen := None, s;
    EvolvesReflexive(s);
    QuietSame(p, s, s);
    IdleSame(p, s, s);
    ActedQuietly(p, aid, d, s, s);
    KnownMeans(s, aid, user);
    session.SettledMeans();
    var found := session.FindApproval(aid);
    if found.None? {
      NothingSaid(NotFound, aid, d, s);
      return NotFound, None, s;
    }
    CurrentInHand(s, aid);
    var a := found.value;
    if a.adminOnly && !user.admin {
      NothingSaid(Forbidden, aid, d, s);
      return Forbidden, None, s;
    }
    if !a.status.Pending? {
      r, seen := AnswerSettled(session, p, user, a, d, agent);
      SettledLocked(p, a, d, user, agent(aid), s, seen, r, session.S());
      return;
    }
    WaitingNeedsLock(a, d, s);
    session.Interfere(p, s);
    ghost var s1 := session.S();
    seen := s1;
    RelyMeans(p, s, s1);
    RoleKept(s, s1, aid);
    ActedQuietly(p, aid, d, s, s1);
    EvolvesReflexive(s1);
    var acquired := session.TryAcquireRunLock(p, s1);
    if !acquired {
      NothingSaid(RunLocked, aid, d, s1);
      return RunLocked, None, seen;
    }
    r, at := DecideAndRelease(session, p, user, aid, d, agent, s1);
    EvolvesTransitive(s, s1, session.S());
    ActedThen(p, aid, d, s, s1, session.S());
    MomentSince(p, s, s1, aid, d, user, at);
    LockedKinds(p, aid, d, user, agent(aid), s1, r, at.Some?, session.S());
  }

  /** The approval exists, and the user may decide it. */
  predicate Known(s: State, aid: nat, user: Identity)
  {
    aid in s.approvals && (s.approvals[aid].adminOnly ==> user.admin)
  }

  lemma KnownMeans(s: State, aid: nat, user: Identity)
    ensures Known(s, aid, user) <==> aid in s.approvals && (s.approvals[aid].adminOnly ==> user.admin)
  {
  }

  lemma WaitingNeedsLock(a: Approval, d: Decision, s: State)
    requires a.status.Pending?
    ensures NeedsLock(a, d, s)
  {
  }

  lemma SettledLocked(p: Pid, a: Approval, d: Decision, user: Identity, reply: AgentReply, s: State, seen: State,
                      r: DecideOutcome, s': State)
    requires SettledAnswer(p, a, d, user, reply, s, seen, r, s')
    ensures r.RunLocked? ==> NeedsLock(a, d, s) && s' == seen && seen.lock.Some?
  {
  }

  lemma MomentSince(p: Pid, s: State, s1: State, aid: nat, d: Decision, user: Identity, at: Option<Moment>)
    requires Evolves(s, s1) && (at.Some? ==> Evolves(s1, at.value.checked))
    ensures at.Some? ==> Evolves(s, at.value.checked)
  {
    if at.Some? {
      EvolvesTransitive(s, s1, at.value.checked);
    }
  }

  lemma LockedKinds(p: Pid, aid: nat, d: Decision, user: Identity, reply: AgentReply, s: State, r: DecideOutcome,
                    decided: bool, s': State)
    requires LockedAnswer(p, aid, d, user, reply, s, r, decided, s')
    ensures !r.RunLocked? && !r.NotFound? && !r.Forbidden?
  {
    hide ResumeDue, NoTaskConflicts, IsExpired, NoPending, AsksForNext, WellFormed, Requested, CleanupOf, Resumption;
    if ResumeDue(s.approvals[aid], d, s) {
      DueMeans(s.approvals[aid], d, s);
    }
  }

  lemma DueMeans(a: Approval, d: Decision, s: State)
    requires ResumeDue(a, d, s)
    ensures a.status == StatusOf(d) && a.resume.failed
  {
  }

  /** What p does once it has got the lock; s1 is the state before. */
  method DecideAndRelease(session: Session, p: Pid, user: Identity, aid: nat, d: Decision, agent: nat -> AgentReply,
                          ghost s1: State)
    returns (r: DecideOutcome, ghost at: Option<Moment>)
    requires session.Settled() && session.S() == s1.(lock := session.S().lock) && Holds(p, session.S())
    requires aid in s1.approvals && (s1.approvals[aid].adminOnly ==> user.admin)
    modifies session
    ensures session.Settled() && !Holds(p, session.S()) && Evolves(s1, session.S())
    ensures Truthful(r, aid, d, session.S()) && Acted(p, aid, d, s1, session.S())
    ensures at.Some? ==> DecisionMoment(p, at.value, aid, d, user) && Evolves(s1, at.value.checked)
                         && DecisionRecorded(aid, d, user, at.value.recorded.now, session.S())
    ensures LockedAnswer(p, aid, d, user, agent(aid), s1, r, at.Some?, session.S())
  {
    hide *;
    ghost var s2 := session.S();
    EvolvesReflexive(s2);
    r, at := DecideLocked(session, p, user, aid, d, agent, s2);
    ghost var s3 := session.S();
    HoldsToo(p, s2, s3);
    session.ReleaseRunLock(p, s2);
    EvolvesUnlocked(s1, s2, session.S());
    TruthfulUnlocked(r, aid, d, s3, session.S());
    ActedUnlocked(p, aid, d, s1, s2, s3, session.S());
    LockOnly(s1, s2);
    AtSince(p, aid, d, user, s1, s2, r, at, s3, session.S());
    AnswerUnlocked(p, aid, d, user, agent(aid), s1, s2, s3, r, at.Some?, session.S());
  }

  lemma AnswerUnlocked(p: Pid, aid: nat, d: Decision, user: Identity, reply: AgentReply, s1: State, s2: State,
                       s3: State, r: DecideOutcome, decided: bool, s4: State)
    requires LockedAnswer(p, aid, d, user, reply, s2, r, decided, s3)
    requires s2 == s1.(lock := s2.lock) && s4 == s3.(lock := None)
    ensures LockedAnswer(p, aid, d, user, reply, s1, r, decided, s4)
  {
    hide NoTaskConflicts, IsExpired, AsksForNext, WellFormed, Requested, CleanupOf, Resumption;
    NonePendingLocked(s1, s2);
    DueUnlocked(s1.approvals[aid], d, s1, s2);
  }

  lemma DueUnlocked(a: Approval, d: Decision, s: State, s': State)
    requires s'.operations == s.operations
    ensures ResumeDue(a, d, s) <==> ResumeDue(a, d, s')
  {
  }

  // ---------------------------------------------------------------- from creation to expiry

  /** An approval that was made as requested no longer counts once its time is up: whoever then decides it under
      the lock is told that it is too late, and nothing is decided. */
  lemma OverdueIsTooLate(a: Approval, i: Interrupt, from: Time, to: Time, p: Pid, d: Decision, user: Identity,
                         reply: AgentReply, s: State, r: DecideOutcome, decided: bool, s': State)
    requires Requested(a, i, from, to) && a.id in s.approvals && s.approvals[a.id] == a
    requires s.now >= to + if i.ttlSeconds == 0 then 300 else i.ttlSeconds
    requires LockedAnswer(p, a.id, d, user, reply, s, r, decided, s')
    ensures r.TooLate? && !decided
  {
  }

  /** And a clean-up that runs then leaves it waiting no longer. */
  lemma OverdueIsCleared(a: Approval, i: Interrupt, from: Time, to: Time, p: Pid, s: State, s': State,
                         log0: seq<Approval>, log: seq<Approval>)
    requires Requested(a, i, from, to) && a.id in s.approvals && s.approvals[a.id] == a
    requires s.now >= to + if i.ttlSeconds == 0 then 300 else i.ttlSeconds
    requires OnlyExpired(s, s') && AllTried(p, s, s', log0, log)
    requires forall k :: k in s'.approvals && s'.approvals[k].status.Pending? ==> !IsExpired(s'.approvals[k], s.now)
    ensures !s'.approvals[a.id].status.Pending? && Attended(p, a.id, s, s')
  {
    assert CleanupDue(s.approvals[a.id], s.now);
  }

  /** As long as there is time left, it can be decided: with no task in the way the decision is recorded. */
  lemma InTimeIsDecided(a: Approval, i: Interrupt, from: Time, to: Time, p: Pid, d: Decision, user: Identity,
                        reply: AgentReply, s: State, r: DecideOutcome, decided: bool, s': State)
    requires Requested(a, i, from, to) && a.id in s.approvals && s.approvals[a.id] == a
    requires s.now < from + if i.ttlSeconds == 0 then 300 else i.ttlSeconds
    requires LockedAnswer(p, a.id, d, user, reply, s, r, decided, s')
    ensures decided <==> d == Reject || NoTaskConflicts(a.calls, s.tasks)
    ensures r.TaskConflict? <==> !decided
  {
    hide NoTaskConflicts;
  }

  lemma LockOnly(s: State, s': State)
    requires s' == s.(lock := s'.lock)
    ensures Evolves(s, s')
  {
  }
}
