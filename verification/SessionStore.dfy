/** The session on disk and its run lock (sessions/repository.py, sessions/run_lock.py). */
module SessionStore {
  import opened Wrappers
  import opened AppendLog
  import opened SessionRecords
  import opened SessionProtocol

  /** The list holds the records of the map, each once. */
  ghost predicate Lists<V(!new)>(r: seq<V>, m: map<nat, V>, id: V -> nat)
  {
    && (forall v :: v in r ==> id(v) in m && m[id(v)] == v)
    && (forall i :: i in m ==> m[i] in r && id(m[i]) == i)
    && (forall i, j :: 0 <= i < j < |r| ==> id(r[i]) != id(r[j]))
  }

  method FindById<V(!new)>(all: seq<V>, id: V -> nat, k: nat, ghost m: map<nat, V>) returns (r: Option<V>)
    requires Lists(all, m, id)
    ensures r == if k in m then Some(m[k]) else None
  {
    for i := 0 to |all|
      invariant k in m ==> m[k] in all[i..]
    {
      if id(all[i]) == k {
        return Some(all[i]);
      }
    }
    return None;
  }

  /** Some expired approval's paused run could not be cleaned up yet. */
  predicate CleanupPending(s: State)
  {
    exists i :: i in s.approvals && s.approvals[i].status.Expired? && s.approvals[i].resume.failed
  }

  class Session {
    var approvals: seq<Approval>
    var operations: seq<Operation>
    var tasks: seq<Task>
    var runLock: Option<Hold>
    var now: Time
    var writes: seq<Write>        // write requests the DBAAS server has received for this session
    ghost var checks: map<nat, Time>
    ghost var tries: seq<Write>   // write requests sent
    ghost var resumes: seq<Resume>
    ghost var marks: seq<Mark>
    ghost var settled: State  // the state after the last complete protocol step

    /** What the logs, the lock, the clock and the server amount to. */
    ghost function S(): State
      reads this
    {
      State(Latest(approvals, ApprovalId), Latest(operations, OperationId), Latest(tasks, TaskId),
            runLock, now, writes, checks, tries, resumes, marks)
    }

    /** No protocol step is half done, and the protocol's invariant holds. */
    ghost predicate Settled()
      reads this
    {
      S() == settled && Inv(settled)
    }

    lemma SettledMeans()
      ensures Settled() <==> S() == settled && Inv(settled)
    {
      hide Inv, S;
    }

    constructor ()
      ensures Settled() && S() == State(map[], map[], map[], None, 0, [], map[], [], [], [])
    {
      approvals, operations, tasks := [], [], [];
      runLock, now, writes, checks, tries, resumes, marks := None, 0, [], map[], [], [], [];
      settled := State(map[], map[], map[], None, 0, [], map[], [], [], []);
    }

    /** Lets every other process run for as long as it likes. The body does nothing; callers learn only
        that the others took steps of the protocol and that logs only grow. */
    method Interfere(p: Pid, ghost origin: State)
      requires Settled() && Evolves(origin, S())
      modifies this
      ensures Settled() && Rely(p, old(S()), S()) && Evolves(origin, S())
      ensures old(approvals) <= approvals && old(operations) <= operations && old(tasks) <= tasks
    {
      hide Inv, Evolves, Rely;
      RelyReflexive(p, S());
    }

    /** Declares what the caller has just done to be one step of the protocol. */
    ghost method Commit(p: Pid, step: Step, origin: State)
      requires Inv(settled) && Evolves(origin, settled)
      requires Enabled(p, settled, step) && S() == Apply(p, settled, step)
      modifies this`settled
      ensures S() == old(S()) && Settled() && Evolves(origin, S())
    {
      StepKeepsInv(p, settled, step);
      EvolvesTransitive(origin, settled, S());
      settled := S();
    }

    /** `acquire_run_lock`: never blocks. */
    method TryAcquireRunLock(p: Pid, ghost origin: State) returns (acquired: bool)
      requires Settled() && Evolves(origin, S()) && !Holds(p, S())
      modifies this`runLock, this`settled
      ensures Settled() && Evolves(origin, S()) && acquired == old(runLock).None? == old(S()).lock.None?
      ensures acquired <==> Holds(p, S())
      ensures S() == if acquired then old(S()).(lock := Some(Hold(p, old(now)))) else old(S())
    {
      acquired := runLock.None?;
      if acquired {
        runLock := Some(Hold(p, now));
        Commit(p, LockTaken, origin);
      }
    }

    method ReleaseRunLock(p: Pid, ghost origin: State)
      requires Settled() && Evolves(origin, S()) && Holds(p, S())
      modifies this`runLock, this`settled
      ensures Settled() && Evolves(origin, S()) && S() == old(S()).(lock := None) && !Holds(p, S())
    {
      runLock := None;
      Commit(p, LockReleased, origin);
    }

    method AppendApproval(a: Approval)
      modifies this`approvals
      ensures approvals == old(approvals) + [a]
      ensures S() == old(S()).(approvals := old(S()).approvals[a.id := a])
    {
      hide Latest;
      LatestAppend(approvals, a, ApprovalId);
      approvals := approvals + [a];
    }

    method AppendOperation(o: Operation)
      modifies this`operations
      ensures operations == old(operations) + [o]
      ensures S() == old(S()).(operations := old(S()).operations[o.id := o])
    {
      hide Latest;
      LatestAppend(operations, o, OperationId);
      operations := operations + [o];
    }

    method AppendTask(t: Task)
      modifies this`tasks
      ensures tasks == old(tasks) + [t]
      ensures S() == old(S()).(tasks := old(S()).tasks[t.id := t])
    {
      hide Latest;
      LatestAppend(tasks, t, TaskId);
      tasks := tasks + [t];
    }

    ghost method NoteTry(w: Write)
      modifies this`tries
      ensures S() == old(S()).(tries := old(S()).tries + [w])
    {
      hide Latest;
      tries := tries + [w];
    }

    ghost method NoteResume(r: Resume)
      modifies this`resumes
      ensures S() == old(S()).(resumes := old(S()).resumes + [r])
    {
      hide Latest;
      resumes := resumes + [r];
    }

    ghost method NoteMark(m: Mark)
      modifies this`marks
      ensures S() == old(S()).(marks := old(S()).marks + [m])
    {
      hide Latest;
      marks := marks + [m];
    }

    /** The server receives a request. */
    method Receive(w: Write)
      modifies this`writes
      ensures S() == old(S()).(writes := old(S()).writes + [w])
    {
      hide Latest;
      writes := writes + [w];
    }

    method LoadApprovals() returns (r: seq<Approval>)
      ensures r == Fold(approvals, ApprovalId) && Lists(r, S().approvals, ApprovalId)
    {
      r := FoldLatestById(approvals, ApprovalId);
    }

    method LoadOperations() returns (r: seq<Operation>)
      ensures r == Fold(operations, OperationId) && Lists(r, S().operations, OperationId)
    {
      r := FoldLatestById(operations, OperationId);
    }

    method LoadTasks() returns (r: seq<Task>)
      ensures r == Fold(tasks, TaskId) && Lists(r, S().tasks, TaskId)
    {
      r := FoldLatestById(tasks, TaskId);
    }

    /** `_find_approval`. */
    method FindApproval(aid: nat) returns (r: Option<Approval>)
      ensures r == if aid in S().approvals then Some(S().approvals[aid]) else None
    {
      var all := LoadApprovals();
      r := FindById(all, ApprovalId, aid, S().approvals);
    }

    /** `has_pending_approval`. */
    method HasPendingApproval() returns (r: bool)
      ensures r <==> !NoPending(S())
    {
      var all := LoadApprovals();
      r := exists a :: a in all && a.status.Pending?;
      if !r {
        forall i | i in S().approvals ensures !S().approvals[i].status.Pending? {
          assert S().approvals[i] in all;
        }
      }
    }

    /** `has_failed_expired_resume`. */
    method HasFailedExpiredResume() returns (r: bool)
      ensures r <==> CleanupPending(S())
    {
      var all := LoadApprovals();
      r := exists a :: a in all && a.status.Expired? && a.resume.failed;
      if r {
        ghost var a :| a in all && a.status.Expired? && a.resume.failed;
        assert S().approvals[a.id] == a;
      } else {
        forall i | i in S().approvals ensures !(S().approvals[i].status.Expired? && S().approvals[i].resume.failed) {
          assert S().approvals[i] in all;
        }
      }
    }
  }
}
