/** The asynchronous tasks of the mock DBAAS server as a transition system: units, tasks, backup records and
    one worker thread per task (mock-server/app/store/json_store.py). One step is one section under the store's
    lock. Versions are lists of their dot-separated parts. */
module MockTasks {
  import opened Wrappers

  datatype Key = Key(service: string, kind: string, unit: string)

  datatype UnitState = UnitState(image: string, version: seq<string>)

  datatype Status = Running | Success | Failed

  datatype Work =
    | Upgrade(service: string, kind: string, image: string, version: Option<seq<string>>, names: seq<string>)
    | Backup(service: string, ids: seq<nat>)

  datatype Task = Task(status: Status, work: Work, reason: Option<string>)

  datatype RecordStatus = RecordRunning | RecordSucceeded | RecordFailed

  datatype Record = Record(id: nat, task: Option<nat>, unit: string, status: RecordStatus, error: Option<string>)

  /** How far the worker of a task has got: with its k-th unit next, or gone. */
  datatype Position = At(k: nat) | Gone

  datatype Write = Write(task: nat, key: Key, image: string, version: Option<seq<string>>)

  datatype State = State(
    initial: map<Key, UnitState>, units: map<Key, UnitState>, tasks: map<nat, Task>, records: seq<Record>,
    workers: map<nat, Position>, writes: seq<Write>)

  // ---------------------------------------------------------------- pieces

  function KeyOf(w: Work, k: nat): Key
    requires w.Upgrade? && k < |w.names|
  {
    Key(w.service, w.kind, w.names[k])
  }

  /** `_unit_upgrade_version`: a target of fewer than four parts keeps the unit's own fourth part. */
  function UpgradedVersion(target: seq<string>, current: seq<string>): (r: seq<string>)
    ensures |r| == 4
    ensures forall i :: 0 <= i < 4 && i < |target| ==> r[i] == target[i]
    ensures forall i :: |target| <= i < 3 ==> r[i] == "0"
    ensures |target| <= 3 ==> r[3] == if |current| >= 4 && current[3] != "" then current[3] else "1"
  {
    if |target| >= 4 then target[..4]
    else
      var suffix := if |current| >= 4 && current[3] != "" then current[3] else "1";
      var padded := target + seq(3 - |target|, _ => "0");
      padded + [suffix]
  }

  function Upgraded(u: UnitState, image: string, version: Option<seq<string>>): UnitState
  {
    UnitState(image, if version.Some? then UpgradedVersion(version.value, u.version) else u.version)
  }

  /** The units after these writes, one after the other. */
  function Replay(units: map<Key, UnitState>, writes: seq<Write>): (r: map<Key, UnitState>)
    ensures r.Keys == units.Keys
  {
    if writes == [] then units
    else
      var before, w := Replay(units, writes[..|writes| - 1]), writes[|writes| - 1];
      if w.key in before then before[w.key := Upgraded(before[w.key], w.image, w.version)] else before
  }

  /** The units a task has written so far, in order. */
  function WrittenBy(task: nat, writes: seq<Write>): seq<Key>
  {
    if writes == [] then []
    else
      var w := writes[|writes| - 1];
      WrittenBy(task, writes[..|writes| - 1]) + if w.task == task then [w.key] else []
  }

  function Keys(w: Work, k: nat): (r: seq<Key>)
    requires w.Upgrade? && k <= |w.names|
    ensures |r| == k
  {
    seq(k, i requires 0 <= i < k => KeyOf(w, i))
  }

  /** The records with every one of this task closed in the same way. */
  function Closed(records: seq<Record>, task: nat, status: RecordStatus, error: Option<string>): (r: seq<Record>)
    ensures |r| == |records|
  {
    seq(|records|, i requires 0 <= i < |records| =>
      if records[i].task == Some(task) then records[i].(status := status, error := error) else records[i])
  }

  function RecordStatusOf(s: Status): RecordStatus
  {
    match s case Running => RecordRunning case Success => RecordSucceeded case Failed => RecordFailed
  }

  predicate IdsApart(records: seq<Record>) { forall i, j :: 0 <= i < j < |records| ==> records[i].id != records[j].id }

  // ---------------------------------------------------------------- steps

  datatype Step =
    | UpgradeCreated(tid: nat, work: Work)
    | BackupCreated(tid: nat, work: Work, made: seq<Record>)
    | UnitUpgraded(tid: nat)
    | Finished(tid: nat)
    | TaskFailed(tid: nat, reason: string)

  predicate FreshTask(tid: nat, s: State)
  {
    tid !in s.tasks && forall r :: r in s.records ==> r.task != Some(tid)
  }

  predicate Enabled(s: State, step: Step)
  {
    match step
    case UpgradeCreated(tid, work) =>
      FreshTask(tid, s) && work.Upgrade? && forall k :: 0 <= k < |work.names| ==> KeyOf(work, k) in s.units
    case BackupCreated(tid, work, made) =>
      && FreshTask(tid, s) && work.Backup? && |made| == |work.ids| && IdsApart(s.records + made)
      && forall i :: 0 <= i < |made| ==>
             made[i].id == work.ids[i] && made[i].task == Some(tid) && made[i].status.RecordRunning?
    case UnitUpgraded(tid) =>
      && tid in s.workers && tid in s.tasks && s.tasks[tid].work.Upgrade? && s.workers[tid].At?
      && s.workers[tid].k < |s.tasks[tid].work.names|
    case Finished(tid) =>
      && tid in s.workers && tid in s.tasks && s.workers[tid].At?
      && (s.tasks[tid].work.Upgrade? ==> s.workers[tid].k == |s.tasks[tid].work.names|)
    case TaskFailed(tid, _) => tid in s.workers && tid in s.tasks && s.workers[tid].At?
  }

  function Apply(s: State, step: Step): State
    requires Enabled(s, step)
  {
    match step
    case UpgradeCreated(tid, work) =>
      s.(tasks := s.tasks[tid := Task(Running, work, None)], workers := s.workers[tid := At(0)])
    case BackupCreated(tid, work, made) =>
      s.(tasks := s.tasks[tid := Task(Running, work, None)], workers := s.workers[tid := At(0)],
         records := s.records + made)
    case UnitUpgraded(tid) =>
      var work, k := s.tasks[tid].work, s.workers[tid].k;
      var key := KeyOf(work, k);
      s.(units := if key in s.units then s.units[key := Upgraded(s.units[key], work.image, work.version)] else s.units,
         workers := s.workers[tid := At(k + 1)], writes := s.writes + [Write(tid, key, work.image, work.version)])
    case Finished(tid) =>
      s.(tasks := s.tasks[tid := s.tasks[tid].(status := Success)], workers := s.workers[tid := Gone],
         records := if s.tasks[tid].work.Backup? then Closed(s.records, tid, RecordSucceeded, None) else s.records)
    case TaskFailed(tid, reason) =>
      s.(tasks := s.tasks[tid := s.tasks[tid].(status := Failed, reason := Some(reason))],
         workers := s.workers[tid := Gone],
         records := Closed(s.records, tid, RecordFailed, Some(reason)))
  }

  // ---------------------------------------------------------------- the invariant

  /** The units written are the first ones of the task, in order. */
  predicate WrittenInOrder(w: Work, written: seq<Key>)
    requires w.Upgrade?
  {
    |written| <= |w.names| && written == Keys(w, |written|)
  }

  predicate TaskOk(tid: nat, s: State)
    requires tid in s.tasks && tid in s.workers
  {
    var t, p := s.tasks[tid], s.workers[tid];
    && (t.status.Running? <==> p.At?)
    && (t.work.Upgrade? ==>
          && (forall k :: 0 <= k < |t.work.names| ==> KeyOf(t.work, k) in s.units)
          && WrittenInOrder(t.work, WrittenBy(tid, s.writes))
          && (p.At? ==> p.k == |WrittenBy(tid, s.writes)|)
          && (t.status.Success? ==> |WrittenBy(tid, s.writes)| == |t.work.names|))
    && (t.work.Backup? ==> WrittenBy(tid, s.writes) == [])
  }

  predicate RecordOk(r: Record, s: State)
  {
    r.task.Some? && r.task.value in s.tasks ==>
      s.tasks[r.task.value].work.Backup? && r.status == RecordStatusOf(s.tasks[r.task.value].status)
  }

  predicate Inv(s: State)
  {
    && s.tasks.Keys == s.workers.Keys
    && (forall tid :: tid in s.tasks ==> TaskOk(tid, s))
    && (forall i :: 0 <= i < |s.records| ==> RecordOk(s.records[i], s))
    && IdsApart(s.records)
    && (forall w :: w in s.writes ==> w.task in s.tasks && w.key in s.units)
    && s.units == Replay(s.initial, s.writes)
  }

  predicate Evolves(s: State, s': State)
  {
    && s'.initial == s.initial && s'.units.Keys == s.units.Keys && s.writes <= s'.writes
    && (forall tid :: tid in s.tasks ==>
          && tid in s'.tasks && s'.tasks[tid].work == s.tasks[tid].work
          && (!s.tasks[tid].status.Running? ==> s'.tasks[tid] == s.tasks[tid]))
    && |s.records| <= |s'.records|
    && (forall i :: 0 <= i < |s.records| ==>
            s'.records[i].id == s.records[i].id && s'.records[i].task == s.records[i].task)
    && (forall i :: 0 <= i < |s.records| && s.records[i].task.None? ==> s'.records[i] == s.records[i])
  }

  lemma WrittenMore(task: nat, writes: seq<Write>, w: Write)
    ensures WrittenBy(task, writes + [w]) == WrittenBy(task, writes) + if w.task == task then [w.key] else []
  {
    assert (writes + [w])[..|writes|] == writes;
  }

  lemma ReplayMore(units: map<Key, UnitState>, writes: seq<Write>, w: Write)
    ensures var before := Replay(units, writes);
            Replay(units, writes + [w])
            == if w.key in before then before[w.key := Upgraded(before[w.key], w.image, w.version)] else before
  {
    assert (writes + [w])[..|writes|] == writes;
  }

  lemma {:induction false} NothingWritten(task: nat, writes: seq<Write>)
    requires forall w :: w in writes ==> w.task != task
    ensures WrittenBy(task, writes) == []
  {
    if writes == [] {
    } else {
      NothingWritten(task, writes[..|writes| - 1]);
    }
  }

  lemma CreatedTaskOk(s: State, step: Step, tid: nat)
    requires Inv(s) && Enabled(s, step) && (step.UpgradeCreated? || step.BackupCreated?) && tid == step.tid
    ensures tid in Apply(s, step).workers && TaskOk(tid, Apply(s, step))
  {
    hide WrittenBy, Replay;
    NothingWritten(tid, s.writes);
  }

  lemma WorkedTaskOk(s: State, tid: nat)
    requires Inv(s) && Enabled(s, UnitUpgraded(tid))
    ensures tid in Apply(s, UnitUpgraded(tid)).workers && TaskOk(tid, Apply(s, UnitUpgraded(tid)))
  {
    hide WrittenBy, Replay;
    assert TaskOk(tid, s);
    var s', work, k := Apply(s, UnitUpgraded(tid)), s.tasks[tid].work, s.workers[tid].k;
    WrittenMore(tid, s.writes, s'.writes[|s.writes|]);
    assert Keys(work, k + 1) == Keys(work, k) + [KeyOf(work, k)];
  }

  lemma OtherTaskOk(s: State, step: Step, tid: nat)
    requires Inv(s) && Enabled(s, step) && step.tid != tid && tid in s.tasks
    ensures tid in Apply(s, step).workers && tid in Apply(s, step).tasks && TaskOk(tid, Apply(s, step))
  {
    hide WrittenBy, Replay, Upgraded, Closed;
    assert TaskOk(tid, s);
    var s' := Apply(s, step);
    if step.UnitUpgraded? {
      WrittenMore(tid, s.writes, s'.writes[|s.writes|]);
    }
    assert WrittenBy(tid, s'.writes) == WrittenBy(tid, s.writes);
  }

  lemma EndedTaskOk(s: State, step: Step)
    requires Inv(s) && Enabled(s, step) && (step.Finished? || step.TaskFailed?)
    ensures step.tid in Apply(s, step).workers && TaskOk(step.tid, Apply(s, step))
  {
    hide WrittenBy, Replay, Closed;
    assert TaskOk(step.tid, s);
  }

  lemma TasksStep(s: State, step: Step, tid: nat)
    requires Inv(s) && Enabled(s, step) && tid in Apply(s, step).tasks
    ensures tid in Apply(s, step).workers && TaskOk(tid, Apply(s, step))
  {
    hide WrittenBy, Replay, Inv, TaskOk, Closed, Upgraded;
    if tid != step.tid {
      OtherTaskOk(s, step, tid);
    } else {
      match step
      case UnitUpgraded(_) => WorkedTaskOk(s, tid);
      case Finished(_) => EndedTaskOk(s, step);
      case TaskFailed(_, _) => EndedTaskOk(s, step);
      case _ => CreatedTaskOk(s, step, tid);
    }
  }

  lemma RecordsStep(s: State, step: Step, i: nat)
    requires Inv(s) && Enabled(s, step) && i < |Apply(s, step).records|
    ensures RecordOk(Apply(s, step).records[i], Apply(s, step))
  {
    hide WrittenBy, Replay;
    if i < |s.records| {
      assert RecordOk(s.records[i], s) && s.records[i] in s.records;
    }
  }

  lemma WritesStep(s: State, step: Step)
    requires Inv(s) && Enabled(s, step)
    ensures var s' := Apply(s, step);
            (forall w :: w in s'.writes ==> w.task in s'.tasks && w.key in s'.units)
            && s'.units == Replay(s'.initial, s'.writes)
  {
    if step.UnitUpgraded? {
      assert TaskOk(step.tid, s);
      var work, k := s.tasks[step.tid].work, s.workers[step.tid].k;
      ReplayMore(s.initial, s.writes, Write(step.tid, KeyOf(work, k), work.image, work.version));
    }
  }

  lemma StepEvolves(s: State, step: Step)
    requires Inv(s) && Enabled(s, step)
    ensures Evolves(s, Apply(s, step)) && IdsApart(Apply(s, step).records)
  {
    if step.UnitUpgraded? || step.Finished? || step.TaskFailed? {
      assert TaskOk(step.tid, s);
    }
  }

  lemma StepKeepsInv(s: State, step: Step)
    requires Inv(s) && Enabled(s, step)
    ensures Inv(Apply(s, step)) && Evolves(s, Apply(s, step))
  {
    var s' := Apply(s, step);
    forall tid | tid in s'.tasks ensures tid in s'.workers && TaskOk(tid, s') {
      TasksStep(s, step, tid);
    }
    forall i | 0 <= i < |s'.records| ensures RecordOk(s'.records[i], s') {
      RecordsStep(s, step, i);
    }
    WritesStep(s, step);
    StepEvolves(s, step);
  }

  lemma EvolvesReflexive(s: State)
    ensures Evolves(s, s)
  {
  }

  lemma EvolvesTransitive(a: State, b: State, c: State)
    requires Evolves(a, b) && Evolves(b, c)
    ensures Evolves(a, c)
  {
  }

  /** What the worker of a task may assume of the others: nobody else touches its task or its position. */
  predicate Rely(tid: nat, s: State, s': State)
  {
    && Inv(s') && Evolves(s, s')
    && (tid in s.tasks ==> tid in s'.tasks && s'.tasks[tid] == s.tasks[tid])
    && (tid in s.workers ==> tid in s'.workers && s'.workers[tid] == s.workers[tid])
  }

  lemma RelyTransitive(tid: nat, a: State, b: State, c: State)
    requires Rely(tid, a, b) && Rely(tid, b, c) && tid in a.tasks
    ensures Rely(tid, a, c)
  {
    hide Inv, Evolves;
    EvolvesTransitive(a, b, c);
  }

  lemma OtherStepIsRely(tid: nat, s: State, step: Step)
    requires Inv(s) && Enabled(s, step) && tid in s.tasks && step.tid != tid
    ensures Rely(tid, s, Apply(s, step))
  {
    StepKeepsInv(s, step);
  }
}
