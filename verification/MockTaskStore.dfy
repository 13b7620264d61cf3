/** The store's task calls and its worker threads (mock-server/app/store/json_store.py). Between two sections
    under the lock the other threads may do anything the protocol allows. */
module MockTaskStore {
  import opened Wrappers
  import opened MockTasks

  datatype Refusal = BadScope | ServiceNotFound | ChildServiceTypeNotFound | ServiceUnitNotFound(missing: seq<string>)

  /** One of these child services has a unit of this name. */
  predicate Within(children: map<string, seq<string>>, kinds: set<string>, unit: string)
  {
    exists kind :: kind in kinds && kind in children && unit in children[kind]
  }

  predicate HasUnit(children: map<string, seq<string>>, unit: string) { Within(children, children.Keys, unit) }

  lemma OneMoreKind(children: map<string, seq<string>>, kinds: set<string>, kind: string, unit: string)
    requires kind in children
    ensures Within(children, kinds + {kind}, unit) <==> Within(children, kinds, unit) || unit in children[kind]
  {
    if Within(children, kinds, unit) {
      var k :| k in kinds && k in children && unit in children[k];
      assert k in kinds + {kind};
    }
    if unit in children[kind] {
      assert kind in kinds + {kind};
    }
  }

  /** The loop over the child services of `_find_unit_by_name`. */
  method AnyUnit(children: map<string, seq<string>>, unit: string) returns (r: bool)
    ensures r <==> HasUnit(children, unit)
  {
    r := false;
    var rest := children.Keys;
    ghost var done: set<string> := {};
    while rest != {}
      invariant rest <= children.Keys && done + rest == children.Keys && (r <==> Within(children, done, unit))
      decreases |rest|
    {
      var kind :| kind in rest;
      OneMoreKind(children, done, kind, unit);
      r := r || unit in children[kind];
      rest, done := rest - {kind}, done + {kind};
    }
    assert done == children.Keys;
  }

  predicate Wanted(n: string, scope: string, unit: Option<string>) { scope == "unit" ==> unit == Some(n) }

  /** The loops of `_backup_target_units`; the child services come in any order. */
  method TargetUnits(children: map<string, seq<string>>, scope: string, unit: Option<string>) returns (r: seq<string>)
    ensures forall n :: n in r <==> HasUnit(children, n) && Wanted(n, scope, unit)
  {
    hide Within, Wanted;
    r := [];
    var rest := children.Keys;
    ghost var done: set<string> := {};
    NothingWithin(children);
    while rest != {}
      invariant rest <= children.Keys && done + rest == children.Keys
      invariant forall n :: n in r <==> Within(children, done, n) && Wanted(n, scope, unit)
      decreases |rest|
    {
      var kind :| kind in rest;
      var chosen := Chosen(children[kind], scope, unit);
      forall n ensures Within(children, done + {kind}, n) <==> Within(children, done, n) || n in children[kind] {
        OneMoreKind(children, done, kind, n);
      }
      r := r + chosen;
      rest, done := rest - {kind}, done + {kind};
    }
    assert done == children.Keys;
  }

  lemma NothingWithin(children: map<string, seq<string>>)
    ensures forall n :: !Within(children, {}, n)
  {
  }

  method Chosen(units: seq<string>, scope: string, unit: Option<string>) returns (r: seq<string>)
    ensures forall n :: n in r <==> n in units && Wanted(n, scope, unit)
  {
    r := [];
    for i := 0 to |units|
      invariant forall n :: n in r <==> n in units[..i] && Wanted(n, scope, unit)
    {
      assert forall n :: n in units[..i + 1] <==> n in units[..i] || n == units[i];
      if scope != "unit" || unit == Some(units[i]) {
        r := r + [units[i]];
      }
    }
    assert units[..|units|] == units;
  }

  datatype Created = Created(tid: nat) | Refused(why: Refusal)

  lemma RelyMeans(tid: nat, s: State, s': State)
    requires Rely(tid, s, s')
    ensures Inv(s') && Evolves(s, s')
    ensures tid in s.tasks ==> tid in s'.tasks && s'.tasks[tid] == s.tasks[tid]
    ensures tid in s.workers ==> tid in s'.workers && s'.workers[tid] == s.workers[tid]
  {
  }

  /** The task has ended as its work demands. */
  predicate Ended(tid: nat, s: State)
  {
    && tid in s.tasks && tid in s.workers && s.workers[tid].Gone? && !s.tasks[tid].status.Running?
    && (s.tasks[tid].status.Failed? ==> s.tasks[tid].reason.Some?)
  }

  predicate Ready(tid: nat, s: State)
  {
    tid in s.tasks && tid in s.workers && s.workers[tid].At? && s.tasks[tid].status.Running?
  }

  lemma FailureMeans(tid: nat, s: State, reason: string)
    requires Ready(tid, s)
    ensures Enabled(s, TaskFailed(tid, reason))
    ensures var t := s.tasks[tid].(status := Failed, reason := Some(reason));
            Apply(s, TaskFailed(tid, reason))
            == s.(tasks := s.tasks[tid := t], workers := s.workers[tid := Gone],
                  records := Closed(s.records, tid, RecordFailed, Some(reason)))
  {
  }

  /** Every unit in the catalog has its state. */
  predicate Known(catalog: map<string, map<string, seq<string>>>, units: map<Key, UnitState>)
  {
    forall service, kind, k ::
      (service in catalog && kind in catalog[service] && 0 <= k < |catalog[service][kind]| ==>
         Key(service, kind, catalog[service][kind][k]) in units)
  }

  class Store {
    const catalog: map<string, map<string, seq<string>>>  // unit names by service and child service type
    const order: seq<string>                              // the services, as they were loaded
    var units: map<Key, UnitState>
    var tasks: map<nat, Task>
    var records: seq<Record>
    ghost var s: State  // the state after the last complete step

    ghost predicate Settled()
      reads this
    {
      && s.units == units && s.tasks == tasks && s.records == records && Inv(s)
      && Known(catalog, units)
    }

    constructor (catalog: map<string, map<string, seq<string>>>, order: seq<string>, units: map<Key, UnitState>,
                 records: seq<Record>)
      requires IdsApart(records)
      requires Known(catalog, units)
      ensures Settled() && s == State(units, units, map[], records, map[], [])
    {
      this.catalog, this.order, this.units, this.tasks, this.records := catalog, order, units, map[], records;
      s := State(units, units, map[], records, map[], []);
    }

    /** Lets the other threads run for as long as they like. The body does nothing; callers learn only that
        the others took steps of the protocol. */
    method Interfere(tid: nat)
      requires Settled()
      modifies this
      ensures Settled() && Rely(tid, old(s), s)
    {
    }

    /** Declares what the caller has just done to be one step of the protocol. */
    ghost method Commit(step: Step)
      requires Inv(s) && Enabled(s, step) && s.units.Keys == units.Keys
      requires var s' := Apply(s, step); s'.units == units && s'.tasks == tasks && s'.records == records
      requires Known(catalog, units)
      modifies this`s
      ensures s == Apply(old(s), step) && Settled() && Evolves(old(s), s)
    {
      hide Inv, Enabled, Apply, Evolves;
      StepKeepsInv(s, step);
      s := Apply(s, step);
    }

    /** The loop that closes the records of a task. */
    method CloseRecords(tid: nat, status: RecordStatus, error: Option<string>)
      modifies this`records
      ensures records == Closed(old(records), tid, status, error)
    {
      for i := 0 to |records|
        invariant |records| == |old(records)|
        invariant forall j :: 0 <= j < |records| ==>
                    records[j] == if j < i then Closed(old(records), tid, status, error)[j] else old(records)[j]
      {
        if records[i].task == Some(tid) {
          records := records[i := records[i].(status := status, error := error)];
        }
      }
    }

    /** `_mark_task_failed`. */
    method MarkTaskFailed(tid: nat, reason: string)
      requires Settled() && Ready(tid, s)
      modifies this
      ensures Settled() && Evolves(old(s), s) && Ended(tid, s) && s.writes == old(s).writes && units == old(units)
      ensures tasks == old(tasks)[tid := old(tasks)[tid].(status := Failed, reason := Some(reason))]
    {
      FailureMeans(tid, s, reason);
      tasks := tasks[tid := tasks[tid].(status := Failed, reason := Some(reason))];
      CloseRecords(tid, RecordFailed, Some(reason));
      Commit(TaskFailed(tid, reason));
    }

    /** `_run_service_image_upgrade_task`: one unit after the other, each under the lock; any exception fails
        the task and leaves what has been written. raises says at which units there is one, and which. */
    method RunImageUpgrade(tid: nat, raises: nat -> Option<string>)
      requires Settled() && Ready(tid, s) && s.workers[tid] == At(0) && s.tasks[tid].work.Upgrade?
      modifies this
      ensures Settled() && Evolves(old(s), s) && Ended(tid, s) && tasks[tid].work == old(tasks[tid].work)
      ensures var n := |tasks[tid].work.names|;
              tasks[tid].status.Success? <==> forall k: nat :: k < n ==> raises(k).None?
      ensures tasks[tid].status.Success? ==>
                WrittenBy(tid, s.writes) == Keys(tasks[tid].work, |tasks[tid].work.names|)
      // the first exception ends it: the units before have been written, and it is the reason given
      ensures forall k: nat :: FirstRaise(raises, k) && k < |tasks[tid].work.names| ==>
                                 WrittenBy(tid, s.writes) == Keys(tasks[tid].work, k) && tasks[tid].reason == raises(k)
    {
      hide Inv, Evolves, Rely, Keys, WrittenBy, Enabled, Apply, Known, Upgraded, Closed;
      ghost var origin := s;
      EvolvesReflexive(s);
      var work := tasks[tid].work;
      for k := 0 to |work.names|
        invariant Settled() && Evolves(origin, s) && Ready(tid, s) && s.workers[tid] == At(k)
                  && s.tasks[tid].work == work
        invariant forall j: nat :: j < k ==> raises(j).None?
      {
        ghost var before := s;
        TakeUnit(tid, work, k, raises(k));
        EvolvesTransitive(origin, before, s);
        if raises(k).Some? {
          return;
        }
      }
      ghost var upgraded := s;
      EndUpgrade(tid, work);
      EvolvesTransitive(origin, upgraded, s);
    }

    /** One turn of the worker's loop. */
    method TakeUnit(tid: nat, work: Work, k: nat, raised: Option<string>)
      requires Settled() && Ready(tid, s) && s.workers[tid] == At(k) && s.tasks[tid].work == work
      requires work.Upgrade? && k < |work.names|
      modifies this
      ensures Settled() && Evolves(old(s), s) && tid in s.tasks && s.tasks[tid].work == work
      ensures raised.None? ==> Ready(tid, s) && s.workers[tid] == At(k + 1)
      ensures raised.Some? ==> Ended(tid, s) && s.tasks[tid].status.Failed? && s.tasks[tid].reason == raised
                               && WrittenBy(tid, s.writes) == Keys(work, k)
    {
      hide Inv, Evolves, Rely, Keys, WrittenBy, Enabled, Apply, Known, Upgraded, Closed;
      ghost var before := s;
      Interfere(tid);
      RelyMeans(tid, before, s);
      ghost var waited := s;
      if raised.Some? {
        WrittenSoFar(tid, waited);
        MarkTaskFailed(tid, raised.value);
      } else {
        UpgradeUnit(tid, work, k);
      }
      EvolvesTransitive(before, waited, s);
    }

    /** The last section of the worker, once every unit has been written. */
    method EndUpgrade(tid: nat, work: Work)
      requires Settled() && Ready(tid, s) && s.tasks[tid].work == work && work.Upgrade?
      requires s.workers[tid] == At(|work.names|)
      modifies this
      ensures Settled() && Evolves(old(s), s) && Ended(tid, s)
      ensures tasks[tid].status.Success? && tasks[tid].work == work
      ensures WrittenBy(tid, s.writes) == Keys(work, |work.names|)
    {
      hide Inv, Evolves, Rely, Keys, WrittenBy;
      ghost var before := s;
      Interfere(tid);
      RelyMeans(tid, before, s);
      ghost var waited := s;
      tasks := tasks[tid := tasks[tid].(status := Success)];
      Commit(Finished(tid));
      EvolvesTransitive(before, waited, s);
      SuccessWritten(tid, s);
    }

    method UpgradeUnit(tid: nat, work: Work, k: nat)
      requires Settled() && Ready(tid, s) && s.workers[tid] == At(k) && s.tasks[tid].work == work
      requires work.Upgrade? && k < |work.names|
      modifies this
      ensures Settled() && Evolves(old(s), s)
      ensures Ready(tid, s) && s.workers[tid] == At(k + 1) && s.tasks == old(s).tasks
      ensures var key := KeyOf(work, k);
              key in old(units) && units == old(units)[key := Upgraded(old(units)[key], work.image, work.version)]
    {
      var key := KeyOf(work, k);
      UnitKnown(tid, s, k);
      var unit := units[key];
      var version := if work.version.Some? then UpgradedVersion(work.version.value, unit.version) else unit.version;
      units := units[key := UnitState(work.image, version)];
      Commit(UnitUpgraded(tid));
    }

    /** `_run_service_backup_task`; raises is the exception that ends it, if there is one. */
    method RunBackup(tid: nat, raises: Option<string>)
      requires Settled() && Ready(tid, s) && s.tasks[tid].work.Backup?
      modifies this
      ensures Settled() && Evolves(old(s), s) && Ended(tid, s) && tasks[tid].work == old(tasks[tid].work)
      ensures tasks[tid].status.Success? <==> raises.None?
      ensures raises.Some? ==> tasks[tid].reason == raises
    {
      hide Inv, Evolves, Rely;
      ghost var before := s;
      Interfere(tid);
      RelyMeans(tid, before, s);
      ghost var waited := s;
      if raises.Some? {
        MarkTaskFailed(tid, raises.value);
      } else {
        CloseRecords(tid, RecordSucceeded, None);
        tasks := tasks[tid := tasks[tid].(status := Success)];
        Commit(Finished(tid));
      }
      EvolvesTransitive(before, waited, s);
    }

    /** `create_service_image_upgrade_task`: without names, all units of the child service type. */
    method CreateImageUpgradeTask(service: string, kind: string, image: string, version: Option<seq<string>>,
                                  names: Option<seq<string>>)
      returns (r: Created)
      requires Settled()
      modifies this
      ensures Settled() && Evolves(old(s), s)
      ensures r == Refused(ServiceNotFound) <==> service !in catalog
      ensures r == Refused(ChildServiceTypeNotFound) <==> service in catalog && kind !in catalog[service]
      ensures r.Refused? ==> s == old(s)
      ensures r.Refused? && r.why.ServiceUnitNotFound? ==>
                names.Some? && r.why.missing != []
                && forall name :: name in r.why.missing <==> name in names.value && name !in catalog[service][kind]
      ensures r.Created? && names.Some? ==> forall name :: name in names.value ==> name in catalog[service][kind]
      ensures r.Created? ==> FreshTask(r.tid, old(s)) && Ready(r.tid, s) && s.workers[r.tid] == At(0)
                             && units == old(units) && records == old(records)
                             && tasks[r.tid].work == Upgrade(service, kind, image, version,
                                                             if names.Some? then names.value
                                                             else catalog[service][kind])
    {
      if service !in catalog {
        return Refused(ServiceNotFound);
      }
      if kind !in catalog[service] {
        return Refused(ChildServiceTypeNotFound);
      }
      var all := catalog[service][kind];
      var chosen := all;
      if names.Some? {
        var missing := Missing(names.value, all);
        if missing != [] {
          return Refused(ServiceUnitNotFound(missing));
        }
        chosen := names.value;
      }
      var tid := NewTaskId(tasks.Keys, records);
      var work := Upgrade(service, kind, image, version, chosen);
      assert forall k :: 0 <= k < |chosen| ==> chosen[k] in all;
      forall k | 0 <= k < |chosen| ensures KeyOf(work, k) in units {
        var j :| 0 <= j < |all| && all[j] == chosen[k];
        assert Key(service, kind, catalog[service][kind][j]) in units;
      }
      tasks := tasks[tid := Task(Running, work, None)];
      Commit(UpgradeCreated(tid, work));
      r := Created(tid);
    }

    /** The first service that has a unit of this name. */
    ghost predicate FirstOwner(service: string, unit: string)
    {
      exists i :: 0 <= i < |order| && order[i] == service && service in catalog && HasUnit(catalog[service], unit)
                  && forall j :: 0 <= j < i && order[j] in catalog ==> !HasUnit(catalog[order[j]], unit)
    }

    /** `_find_unit_by_name`, as far as the service goes. */
    method FindUnit(unit: string) returns (r: Option<string>)
      ensures r.Some? ==> FirstOwner(r.value, unit)
      ensures r.None? ==> forall service :: !FirstOwner(service, unit)
    {
      for i := 0 to |order|
        invariant forall j :: 0 <= j < i && order[j] in catalog ==> !HasUnit(catalog[order[j]], unit)
      {
        if order[i] in catalog {
          var found := AnyUnit(catalog[order[i]], unit);
          if found {
            return Some(order[i]);
          }
        }
      }
      return None;
    }

    lemma OneFirstOwner(a: string, b: string, unit: string)
      requires FirstOwner(a, unit) && FirstOwner(b, unit)
      ensures a == b
    {
    }

    /** What makes a backup of a unit fail: it is named and not found in the service, where a name that several
        services use stands for the first of them; or the scope is a unit and none of that name is there. */
    ghost predicate UnitMissing(service: string, scope: string, unit: Option<string>)
      requires service in catalog
    {
      || (unit.Some? && unit.value != "" && !FirstOwner(service, unit.value))
      || (scope == "unit" && (unit.None? || !HasUnit(catalog[service], unit.value)))
    }

    /** `_resolve_backup_target` and `_backup_target_units`, on a scope already stripped and in lower case. */
    method ResolveBackup(service: string, scope: string, unit: Option<string>)
      returns (refusal: Option<Refusal>, targets: seq<string>)
      ensures refusal == Some(BadScope) <==> scope !in ["service", "unit"]
      ensures refusal == Some(ServiceNotFound) <==> scope in ["service", "unit"] && service !in catalog
      ensures refusal.Some? && refusal.value.ServiceUnitNotFound?
              <==> scope in ["service", "unit"] && service in catalog && UnitMissing(service, scope, unit)
      ensures refusal != Some(ChildServiceTypeNotFound)
      ensures refusal.None? ==>
                forall n :: n in targets <==> HasUnit(catalog[service], n) && Wanted(n, scope, unit)
    {
      targets := [];
      if scope !in ["service", "unit"] {
        return Some(BadScope), [];
      }
      if service !in catalog {
        return Some(ServiceNotFound), [];
      }
      if unit.Some? && unit.value != "" {
        var owner := FindUnit(unit.value);
        if owner != Some(service) {
          if owner.Some? && FirstOwner(service, unit.value) {
            OneFirstOwner(owner.value, service, unit.value);
          }
          return Some(ServiceUnitNotFound([unit.value])), [];
        }
      }
      targets := TargetUnits(catalog[service], scope, unit);
      if targets == [] && scope == "unit" {
        if unit.Some? {
          assert unit.value !in targets;
        }
        return Some(ServiceUnitNotFound([if unit.Some? then unit.value else ""])), [];
      }
      if scope == "unit" {
        assert targets[0] in targets;
      }
      return None, targets;
    }

    /** `create_service_backup_task`. */
    method CreateBackupTask(service: string, scope: string, unit: Option<string>)
      returns (r: Created, targets: seq<string>)
      requires Settled()
      modifies this
      ensures Settled() && Evolves(old(s), s)
      ensures r == Refused(BadScope) <==> scope !in ["service", "unit"]
      ensures r == Refused(ServiceNotFound) <==> scope in ["service", "unit"] && service !in catalog
      ensures r.Refused? && r.why.ServiceUnitNotFound?
              <==> scope in ["service", "unit"] && service in catalog && UnitMissing(service, scope, unit)
      ensures r.Refused? ==> s == old(s) && r.why != ChildServiceTypeNotFound
      ensures r.Created? ==> BackupMade(r.tid, targets, old(s), s) && units == old(units)
      ensures r.Created? ==>
                forall n :: n in targets <==> HasUnit(catalog[service], n) && Wanted(n, scope, unit)
    {
      var refusal: Option<Refusal>;
      refusal, targets := ResolveBackup(service, scope, unit);
      if refusal.Some? {
        return Refused(refusal.value), targets;
      }
      var tid := RecordBackups(service, targets);
      r := Created(tid);
    }

    /** A task for a backup, and a running record for each of the units. */
    method RecordBackups(service: string, targets: seq<string>) returns (tid: nat)
      requires Settled()
      modifies this
      ensures Settled() && Evolves(old(s), s) && BackupMade(tid, targets, old(s), s) && units == old(units)
    {
      tid := NewTaskId(tasks.Keys, records);
      var ids: seq<nat> := [];
      ghost var made: seq<Record> := [];
      for i := 0 to |targets|
        invariant s == old(s) && units == old(units) && tasks == old(tasks)
        invariant |ids| == |made| == i && records == old(records) + made && IdsApart(records)
        invariant forall j :: 0 <= j < i ==> made[j] == Record(ids[j], Some(tid), targets[j], RecordRunning, None)
      {
        var id := NewRecordId(records);
        var record := Record(id, Some(tid), targets[i], RecordRunning, None);
        ids := ids + [id];
        made := made + [record];
        records := records + [record];
      }
      var work := Backup(service, ids);
      tasks := tasks[tid := Task(Running, work, None)];
      Commit(BackupCreated(tid, work, made));
    }
  }

  /** The new task is running, and has one running record for each of these units, under an id of its own. */
  predicate BackupMade(tid: nat, targets: seq<string>, s: State, s': State)
  {
    && FreshTask(tid, s) && Ready(tid, s') && s'.tasks[tid].work.Backup? && |s'.tasks[tid].work.ids| == |targets|
    && |s'.records| == |s.records| + |targets| && s'.records[..|s.records|] == s.records && IdsApart(s'.records)
    && forall i :: 0 <= i < |targets| ==>
         s'.records[|s.records| + i] == Record(s'.tasks[tid].work.ids[i], Some(tid), targets[i], RecordRunning, None)
  }

  lemma UnitKnown(tid: nat, s: State, k: nat)
    requires Inv(s) && tid in s.tasks && s.tasks[tid].work.Upgrade? && k < |s.tasks[tid].work.names|
    ensures KeyOf(s.tasks[tid].work, k) in s.units
  {
    assert TaskOk(tid, s);
  }

  predicate FirstRaise(raises: nat -> Option<string>, k: nat)
  {
    raises(k).Some? && forall j: nat :: j < k ==> raises(j).None?
  }

  lemma WrittenSoFar(tid: nat, s: State)
    requires Inv(s) && tid in s.tasks && tid in s.workers && s.tasks[tid].work.Upgrade? && s.workers[tid].At?
    requires s.workers[tid].k <= |s.tasks[tid].work.names|
    ensures WrittenBy(tid, s.writes) == Keys(s.tasks[tid].work, s.workers[tid].k)
  {
    assert TaskOk(tid, s);
  }

  lemma SuccessWritten(tid: nat, s: State)
    requires Inv(s) && tid in s.tasks && s.tasks[tid].work.Upgrade? && s.tasks[tid].status.Success?
    ensures WrittenBy(tid, s.writes) == Keys(s.tasks[tid].work, |s.tasks[tid].work.names|)
  {
    assert TaskOk(tid, s);
  }

  method Missing(names: seq<string>, all: seq<string>) returns (missing: seq<string>)
    ensures forall name :: name in missing <==> name in names && name !in all
  {
    missing := [];
    for i := 0 to |names|
      invariant forall name :: name in missing <==> name in names[..i] && name !in all
    {
      if names[i] !in all {
        missing := missing + [names[i]];
      }
    }
  }

  /** A random id; that it is fresh among the records as well is an assumption on the generator, made true
      here by looking. */
  method NewTaskId(used: set<nat>, records: seq<Record>) returns (tid: nat)
    ensures tid !in used && forall r :: r in records ==> r.task != Some(tid)
  {
    var taken := used + set r | r in records && r.task.Some? :: r.task.value;
    tid := FreshId(taken);
  }

  /** `_next_backup_id`. */
  method NewRecordId(records: seq<Record>) returns (id: nat)
    ensures forall r :: r in records ==> r.id != id
  {
    id := FreshId(set r | r in records :: r.id);
  }
}
