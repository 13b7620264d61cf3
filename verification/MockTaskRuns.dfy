/** Whole runs of the mock server's task workers, for any schedule. */
module MockTaskRuns {
  import opened Wrappers
  import opened MockTasks

  /** A start: no tasks yet, and records from earlier that belong to none. */
  predicate Initial(s: State)
  {
    && s.units == s.initial && s.tasks == map[] && s.workers == map[] && s.writes == [] && IdsApart(s.records)
  }

  predicate IsRun(ss: seq<State>, es: seq<Step>)
  {
    && |ss| == |es| + 1 && Initial(ss[0])
    && forall i :: 0 <= i < |es| ==> Enabled(ss[i], es[i]) && ss[i + 1] == Apply(ss[i], es[i])
  }

  lemma {:induction false} InvAt(ss: seq<State>, es: seq<Step>, i: nat)
    requires IsRun(ss, es) && i < |ss|
    ensures Inv(ss[i])
  {
    if i == 0 {
    } else {
      InvAt(ss, es, i - 1);
      StepKeepsInv(ss[i - 1], es[i - 1]);
    }
  }

  lemma {:induction false} EvolvesBetween(ss: seq<State>, es: seq<Step>, i: nat, j: nat)
    requires IsRun(ss, es) && i <= j < |ss|
    ensures Evolves(ss[i], ss[j])
    decreases j
  {
    hide Evolves, Enabled, Apply, Inv;
    if i == j {
      EvolvesReflexive(ss[i]);
    } else {
      EvolvesBetween(ss, es, i, j - 1);
      InvAt(ss, es, j - 1);
      StepKeepsInv(ss[j - 1], es[j - 1]);
      EvolvesTransitive(ss[i], ss[j - 1], ss[j]);
    }
  }

  predicate Leaves(ss: seq<State>, i: nat, tid: nat)
    requires i + 1 < |ss|
  {
    tid in ss[i].tasks && ss[i].tasks[tid].status.Running? && tid in ss[i + 1].tasks
        && !ss[i + 1].tasks[tid].status.Running?
  }

  /** A task leaves RUNNING once at most, and what it says then stays. */
  lemma LeavesRunningOnce(ss: seq<State>, es: seq<Step>, i: nat, j: nat, tid: nat)
    requires IsRun(ss, es) && i <= j < |es| && Leaves(ss, i, tid)
    ensures Leaves(ss, j, tid) ==> i == j
    ensures tid in ss[j + 1].tasks && ss[j + 1].tasks[tid] == ss[i + 1].tasks[tid]
  {
    EvolvesBetween(ss, es, i + 1, j + 1);
    if i < j {
      EvolvesBetween(ss, es, i + 1, j);
    }
  }

  /** A successful upgrade has written each of its units, in order and no other. */
  lemma SuccessMeansWritten(ss: seq<State>, es: seq<Step>, i: nat, tid: nat)
    requires IsRun(ss, es) && i < |ss| && tid in ss[i].tasks && ss[i].tasks[tid].status.Success?
    requires ss[i].tasks[tid].work.Upgrade?
    ensures WrittenBy(tid, ss[i].writes) == Keys(ss[i].tasks[tid].work, |ss[i].tasks[tid].work.names|)
  {
    InvAt(ss, es, i);
    assert TaskOk(tid, ss[i]);
  }

  /** A unit shows the image of the last write to it, with all versions applied in order before ... */
  lemma {:induction false} LastWriterShows(units: map<Key, UnitState>, writes: seq<Write>, i: nat)
    requires i < |writes| && writes[i].key in units
    requires forall j :: i < j < |writes| ==> writes[j].key != writes[i].key
    ensures var key := writes[i].key;
            Replay(units, writes)[key] == Upgraded(Replay(units, writes[..i])[key], writes[i].image, writes[i].version)
  {
    var n := |writes| - 1;
    if i == n {
    } else {
      assert writes[..n][i] == writes[i] && writes[..n][..i] == writes[..i];
      LastWriterShows(units, writes[..n], i);
    }
  }

  lemma {:induction false} UnwrittenShows(units: map<Key, UnitState>, writes: seq<Write>, key: Key)
    requires key in units && forall w :: w in writes ==> w.key != key
    ensures Replay(units, writes)[key] == units[key]
  {
    if writes == [] {
    } else {
      UnwrittenShows(units, writes[..|writes| - 1], key);
    }
  }

  lemma {:induction false} WrittenIn(task: nat, writes: seq<Write>, w: Write)
    requires w in writes && w.task == task
    ensures w.key in WrittenBy(task, writes)
  {
    var n := |writes| - 1;
    if writes[n] != w {
      assert w in writes[..n];
      WrittenIn(task, writes[..n], w);
    }
  }

  predicate Names(t: Task, key: Key)
  {
    t.work.Upgrade? && exists k :: 0 <= k < |t.work.names| && KeyOf(t.work, k) == key
  }

  lemma WritesNamed(s: State, w: Write)
    requires Inv(s) && w in s.writes
    ensures Names(s.tasks[w.task], w.key)
  {
    WrittenIn(w.task, s.writes, w);
    assert TaskOk(w.task, s);
    var written := WrittenBy(w.task, s.writes);
    var k :| 0 <= k < |written| && written[k] == w.key;
    assert KeyOf(s.tasks[w.task].work, k) == w.key;
  }

  /** ... and a unit that no task names is as it was at the start. */
  lemma UnnamedUnitsUnchanged(ss: seq<State>, es: seq<Step>, i: nat, key: Key)
    requires IsRun(ss, es) && i < |ss| && key in ss[i].units
    requires forall tid :: tid in ss[i].tasks ==> !Names(ss[i].tasks[tid], key)
    ensures key in ss[0].units && ss[i].units[key] == ss[0].units[key]
  {
    InvAt(ss, es, i);
    EvolvesBetween(ss, es, 0, i);
    forall w | w in ss[i].writes ensures w.key != key {
      WritesNamed(ss[i], w);
    }
    UnwrittenShows(ss[i].initial, ss[i].writes, key);
  }

  lemma BackupIdsUnique(ss: seq<State>, es: seq<Step>, i: nat, a: nat, b: nat)
    requires IsRun(ss, es) && i < |ss| && a < |ss[i].records| && b < |ss[i].records|
    requires ss[i].records[a].id == ss[i].records[b].id
    ensures a == b
  {
    InvAt(ss, es, i);
  }

  /** A record made by a task is running exactly while the task is, and then says how the task ended. */
  lemma RecordsFollowTheirTask(ss: seq<State>, es: seq<Step>, i: nat, a: nat)
    requires IsRun(ss, es) && i < |ss| && a < |ss[i].records|
    requires ss[i].records[a].task.Some? && ss[i].records[a].task.value in ss[i].tasks
    ensures var r, t := ss[i].records[a], ss[i].tasks[ss[i].records[a].task.value];
            (r.status.RecordRunning? <==> t.status.Running?) && (r.status.RecordSucceeded? <==> t.status.Success?)
            && (r.status.RecordFailed? <==> t.status.Failed?)
  {
    InvAt(ss, es, i);
    assert RecordOk(ss[i].records[a], ss[i]);
  }

  /** Any number of steps that are not the task's own stay within what its worker relies on. */
  lemma {:induction false} OthersStayWithinRely(tid: nat, ss: seq<State>, es: seq<Step>)
    requires |ss| == |es| + 1 && Inv(ss[0]) && tid in ss[0].tasks
    requires forall i :: 0 <= i < |es| ==> es[i].tid != tid && Enabled(ss[i], es[i]) && ss[i + 1] == Apply(ss[i], es[i])
    ensures Rely(tid, ss[0], ss[|es|])
  {
    hide Evolves, Enabled, Apply, Inv;
    if es == [] {
      NobodyMoved(tid, ss[0]);
    } else {
      var n := |es| - 1;
      OthersStayWithinRely(tid, ss[..n + 1], es[..n]);
      assert ss[..n + 1][n] == ss[n];
      OtherStepIsRely(tid, ss[n], es[n]);
      RelyTransitive(tid, ss[0], ss[n], ss[n + 1]);
    }
  }

  lemma NobodyMoved(tid: nat, s: State)
    requires Inv(s)
    ensures Rely(tid, s, s)
  {
    EvolvesReflexive(s);
  }
}
