/** The task event stream: polling, status changes and terminal notices (api/routes_tasks.py). */
module TaskEvents {
  import opened Wrappers
  import opened AppendLog
  import opened SessionRecords
  import opened SessionProtocol
  import opened SessionStore
  import opened TaskService

  /** One `task_terminal_notice_emitted` event. */
  datatype Notice = Notice(group: NoticeGroup, tasks: seq<Task>)

  /** The notice announces a whole group, every task of it once, finished and now marked. */
  predicate Announces(n: Notice, tasks: map<nat, Task>, operations: map<nat, Operation>)
  {
    && DistinctTasks(n.tasks)
    && (forall j :: 0 <= j < |n.tasks| ==>
          var t := n.tasks[j];
          t.id in tasks && tasks[t.id] == t && t.noticeEmitted && Terminal(t)
          && TaskNoticeGroup(t, operations) == n.group)
    && (forall i :: i in tasks && TaskNoticeGroup(tasks[i], operations) == n.group ==> tasks[i] in n.tasks)
  }

  predicate AllFinished(ids: set<nat>, tasks: map<nat, Task>)
  {
    forall i :: i in ids ==> i in tasks && Terminal(tasks[i])
  }

  /** An id leaves the pending set only when its task is marked in the log. */
  predicate Settles(pending: set<nat>, rest: set<nat>, tasks: map<nat, Task>)
  {
    rest <= pending && forall i :: i in pending && i !in rest ==> i in tasks && tasks[i].noticeEmitted
  }

  function OfGroup(tasks: seq<Task>, operations: map<nat, Operation>, g: NoticeGroup): (r: seq<Task>)
    ensures forall t :: t in r <==> t in tasks && TaskNoticeGroup(t, operations) == g
  {
    if tasks == [] then []
    else
      var rest := OfGroup(tasks[1..], operations, g);
      if TaskNoticeGroup(tasks[0], operations) == g then [tasks[0]] + rest else rest
  }

  predicate DistinctTasks(tasks: seq<Task>) { forall i, j :: 0 <= i < j < |tasks| ==> tasks[i].id != tasks[j].id }

  lemma {:induction false} OfGroupDistinct(tasks: seq<Task>, operations: map<nat, Operation>, g: NoticeGroup)
    requires DistinctTasks(tasks)
    ensures DistinctTasks(OfGroup(tasks, operations, g))
  {
    if tasks == [] {
    } else {
      OfGroupDistinct(tasks[1..], operations, g);
      var rest := OfGroup(tasks[1..], operations, g);
      forall i | 0 <= i < |rest| ensures rest[i].id != tasks[0].id {
        assert rest[i] in tasks[1..];
        var j :| 1 <= j < |tasks| && tasks[j] == rest[i];
      }
    }
  }

  /** The task list of one poll against the log: same ids, same groups, and outside the groups already
      visited a finished record is the current one. */
  predicate Snapshot(latest: seq<Task>, operations: map<nat, Operation>, visited: set<NoticeGroup>, s: State)
  {
    && DistinctTasks(latest)
    && (forall t :: t in latest ==>
          && t.id in s.tasks && TaskNoticeGroup(s.tasks[t.id], s.operations) == TaskNoticeGroup(t, operations)
          && (Terminal(t) && TaskNoticeGroup(t, operations) !in visited ==> s.tasks[t.id] == t))
    && (forall i :: i in s.tasks ==> exists t :: t in latest && t.id == i)
  }

  lemma SnapshotTaken(p: Pid, latest: seq<Task>, s: State, s': State)
    requires Lists(latest, s.tasks, TaskId) && Holds(p, s) && Rely(p, s, s')
    ensures Snapshot(latest, s.operations, {}, s')
  {
    hide Inv;
    assert forall t :: t in latest ==> TaskId(t) == t.id;
    forall i | i in s'.tasks ensures exists t :: t in latest && t.id == i {
      assert s.tasks[i] in latest && TaskId(s.tasks[i]) == i;
    }
    forall t | t in latest && Terminal(t) ensures s'.tasks[t.id] == t {
      assert s.tasks[t.id] == t && SameTask(s'.tasks[t.id], t);
    }
  }

  lemma GroupAnnounceable(latest: seq<Task>, operations: map<nat, Operation>, visited: set<NoticeGroup>, s: State,
                          g: NoticeGroup)
    requires Snapshot(latest, operations, visited, s) && g !in visited
    requires forall t :: t in OfGroup(latest, operations, g) ==> Terminal(t)
    ensures forall t :: t in OfGroup(latest, operations, g) ==> Announceable(t, s)
  {
    forall t, u | t in OfGroup(latest, operations, g) && u in s.tasks
                  && TaskNoticeGroup(s.tasks[u], s.operations) == TaskNoticeGroup(t, s.operations)
      ensures Terminal(s.tasks[u])
    {
      assert s.tasks[t.id] == t;
      var v :| v in latest && v.id == u;
      assert v in OfGroup(latest, operations, g);
    }
  }

  /** While p holds the lock the others take nothing away from what it has read ... */
  lemma SnapshotUnder(p: Pid, latest: seq<Task>, operations: map<nat, Operation>, visited: set<NoticeGroup>, s: State,
                      s': State)
    requires Snapshot(latest, operations, visited, s) && Holds(p, s) && Rely(p, s, s')
    ensures Snapshot(latest, operations, visited, s')
  {
    hide Inv;
    assert forall i :: i in s.tasks ==> SameTask(s'.tasks[i], s.tasks[i]);
    forall t | t in latest
      ensures TaskNoticeGroup(s'.tasks[t.id], s'.operations) == TaskNoticeGroup(s.tasks[t.id], s.operations)
    {
      GroupKept(s.tasks[t.id], s'.tasks[t.id], s, s');
    }
  }

  lemma GroupKept(t: Task, t': Task, s: State, s': State)
    requires t'.operationId == t.operationId && s'.operations.Keys == s.operations.Keys
    requires OperationsEvolve(s.operations, s'.operations)
    ensures TaskNoticeGroup(t', s'.operations) == TaskNoticeGroup(t, s.operations)
  {
  }

  /** ... nor from what it has announced. */
  lemma AnnouncesUnder(p: Pid, n: Notice, s: State, s': State)
    requires Announces(n, s.tasks, s.operations) && Holds(p, s) && Rely(p, s, s')
    ensures Announces(n, s'.tasks, s'.operations)
  {
    hide Inv;
    forall i | i in s.tasks
      ensures TaskNoticeGroup(s'.tasks[i], s'.operations) == TaskNoticeGroup(s.tasks[i], s.operations)
      ensures Terminal(s.tasks[i]) && s.tasks[i].noticeEmitted ==> s'.tasks[i] == s.tasks[i]
    {
      assert SameTask(s'.tasks[i], s.tasks[i]);
      GroupKept(s.tasks[i], s'.tasks[i], s, s');
    }
    forall i | i in s'.tasks && TaskNoticeGroup(s'.tasks[i], s'.operations) == n.group ensures s'.tasks[i] in n.tasks {
      assert s.tasks[i] in n.tasks;
      var j :| 0 <= j < |n.tasks| && n.tasks[j] == s.tasks[i];
    }
  }

  lemma AllAnnounceUnder(p: Pid, events: seq<Notice>, s: State, s': State)
    requires AllAnnounce(events, s.tasks, s.operations) && Holds(p, s) && Rely(p, s, s')
    ensures AllAnnounce(events, s'.tasks, s'.operations)
  {
    hide Rely, Announces;
    forall n | n in events ensures Announces(n, s'.tasks, s'.operations) {
      AnnouncesUnder(p, n, s, s');
    }
  }

  lemma SettlesUnder(pending: set<nat>, rest: set<nat>, tasks: map<nat, Task>, tasks': map<nat, Task>)
    requires Settles(pending, rest, tasks) && TasksEvolve(tasks, tasks')
    ensures Settles(pending, rest, tasks')
  {
  }

  lemma IdOfGroup(latest: seq<Task>, operations: map<nat, Operation>, g: NoticeGroup, t: Task)
    requires DistinctTasks(latest) && t in latest
    ensures t.id in IdsOf(OfGroup(latest, operations, g)) <==> TaskNoticeGroup(t, operations) == g
  {
    var tasks := OfGroup(latest, operations, g);
    if t.id in IdsOf(tasks) {
      var j :| 0 <= j < |tasks| && tasks[j].id == t.id;
      assert tasks[j] in tasks && tasks[j] in latest;
    }
  }

  // ---------------------------------------------------------------- nothing is marked in silence

  predicate InNotice(tid: nat, notices: seq<Notice>) { exists n :: n in notices && tid in IdsOf(n.tasks) }

  /** p has marked a task of this notice since s. */
  predicate HasNews(p: Pid, n: Notice, s: State, s': State)
  {
    exists k :: |s.marks| <= k < |s'.marks| && s'.marks[k].holder == p && s'.marks[k].tid in IdsOf(n.tasks)
  }

  /** Every task that p has marked since s stands in a notice, and every notice tells of such a task. */
  predicate Accounted(p: Pid, notices: seq<Notice>, s: State, s': State)
  {
    && s.marks <= s'.marks
    && (forall k :: |s.marks| <= k < |s'.marks| && s'.marks[k].holder == p ==> InNotice(s'.marks[k].tid, notices))
    && (forall n :: n in notices ==> HasNews(p, n, s, s'))
  }

  lemma InNoticeToo(tid: nat, notices: seq<Notice>, more: seq<Notice>)
    requires InNotice(tid, notices) && forall n :: n in notices ==> n in more
    ensures InNotice(tid, more)
  {
    var n :| n in notices && tid in IdsOf(n.tasks);
    assert n in more;
  }

  lemma HasNewsToo(p: Pid, n: Notice, s: State, s1: State, s2: State, s3: State)
    requires HasNews(p, n, s1, s2) && |s.marks| <= |s1.marks| && s2.marks <= s3.marks
    ensures HasNews(p, n, s, s3)
  {
    var k :| |s1.marks| <= k < |s2.marks| && s2.marks[k].holder == p && s2.marks[k].tid in IdsOf(n.tasks);
    assert s3.marks[k] == s2.marks[k];
  }

  lemma AccountedThen(p: Pid, before: seq<Notice>, after: seq<Notice>, s: State, s1: State, s2: State)
    requires Accounted(p, before, s, s1) && Accounted(p, after, s1, s2)
    ensures Accounted(p, before + after, s, s2)
  {
    hide InNotice, HasNews;
    var all := before + after;
    forall k | |s.marks| <= k < |s2.marks| && s2.marks[k].holder == p ensures InNotice(s2.marks[k].tid, all) {
      if k < |s1.marks| {
        assert s2.marks[k] == s1.marks[k];
        InNoticeToo(s1.marks[k].tid, before, all);
      } else {
        InNoticeToo(s2.marks[k].tid, after, all);
      }
    }
    forall n | n in all ensures HasNews(p, n, s, s2) {
      if n in before {
        HasNewsToo(p, n, s, s, s1, s2);
      } else {
        HasNewsToo(p, n, s, s1, s2, s2);
      }
    }
  }

  lemma NothingToTell(p: Pid, s: State, s': State)
    requires Idle(p, s, s') || s'.marks == s.marks
    ensures Accounted(p, [], s, s')
  {
  }

  lemma AccountedSame(p: Pid, notices: seq<Notice>, s: State, s1: State, s2: State)
    requires Accounted(p, notices, s, s1) && s2.marks == s1.marks
    ensures Accounted(p, notices, s, s2)
  {
    forall n | n in notices ensures HasNews(p, n, s, s2) {
      HasNewsToo(p, n, s, s, s1, s2);
    }
  }

  lemma MarksOfInv(s: State)
    requires Inv(s)
    ensures MarksOk(s)
  {
  }

  /** A flag that has been set since was set by the one who marked. */
  lemma NewMark(p: Pid, ids: set<nat>, t: Task, s: State, s': State) returns (k: nat)
    requires MarksOk(s) && MarksOk(s') && MarkedBy(p, ids, s, s')
    requires t.id in ids && t.id in s.tasks && !s.tasks[t.id].noticeEmitted
    ensures |s.marks| <= k < |s'.marks| && s'.marks[k] == Mark(p, t.id)
  {
    assert s'.tasks[t.id].noticeEmitted && IsMarked(t.id, s'.marks);
    assert forall i :: 0 <= i < |s.marks| ==> s'.marks[i] == s.marks[i];
    k :| 0 <= k < |s'.marks| && s'.marks[k].tid == t.id;
  }

  /** The tasks of one group marked in one go, with the notice that tells of them. */
  lemma OneNoticeAccounted(p: Pid, n: Notice, ids: set<nat>, t: Task, s: State, s': State)
    requires MarksOk(s) && MarksOk(s') && MarkedBy(p, ids, s, s') && IdsOf(n.tasks) == ids
    requires t.id in ids && t.id in s.tasks && !s.tasks[t.id].noticeEmitted
    ensures Accounted(p, [n], s, s')
  {
    hide MarksOk, WithNotices, IdsOf;
    var k := NewMark(p, ids, t, s, s');
    assert HasNews(p, n, s, s');
    forall k | |s.marks| <= k < |s'.marks| ensures InNotice(s'.marks[k].tid, [n]) {
      assert n in [n] && s'.marks[k].tid in IdsOf(n.tasks);
    }
  }

  /** No two notices are about the same group, and the groups have been visited. */
  predicate Apart(notices: seq<Notice>, visited: set<NoticeGroup>)
  {
    && (forall i, j :: 0 <= i < j < |notices| ==> notices[i].group != notices[j].group)
    && forall n :: n in notices ==> n.group in visited
  }

  lemma ApartMore(notices: seq<Notice>, visited: set<NoticeGroup>, n: Notice)
    requires Apart(notices, visited) && n.group !in visited
    ensures Apart(notices, visited + {n.group}) && Apart(notices + [n], visited + {n.group})
  {
  }

  /** Within one poll a task stands in one notice only. */
  lemma ToldOnce(notices: seq<Notice>, visited: set<NoticeGroup>, s: State, tid: nat, i: nat, j: nat)
    requires AllAnnounce(notices, s.tasks, s.operations) && Apart(notices, visited)
    requires i < |notices| && j < |notices| && tid in IdsOf(notices[i].tasks) && tid in IdsOf(notices[j].tasks)
    ensures i == j
  {
    var k :| 0 <= k < |notices[i].tasks| && notices[i].tasks[k].id == tid;
    var l :| 0 <= l < |notices[j].tasks| && notices[j].tasks[l].id == tid;
    assert Announces(notices[i], s.tasks, s.operations) && Announces(notices[j], s.tasks, s.operations);
  }

  lemma SnapshotWider(latest: seq<Task>, operations: map<nat, Operation>, visited: set<NoticeGroup>, s: State,
                      g: NoticeGroup)
    requires Snapshot(latest, operations, visited, s)
    ensures Snapshot(latest, operations, visited + {g}, s)
  {
  }

  /** Marking one whole group keeps the snapshot good for the others ... */
  lemma SnapshotKept(latest: seq<Task>, operations: map<nat, Operation>, visited: set<NoticeGroup>, s: State,
                     g: NoticeGroup, s': State)
    requires Snapshot(latest, operations, visited, s)
    requires s'.tasks == WithNotices(s.tasks, IdsOf(OfGroup(latest, operations, g))) && s'.operations == s.operations
    ensures Snapshot(latest, operations, visited + {g}, s')
  {
    var ids := IdsOf(OfGroup(latest, operations, g));
    var m := WithNotices(s.tasks, ids);
    forall t | t in latest
      ensures t.id in m && TaskNoticeGroup(m[t.id], s.operations) == TaskNoticeGroup(t, operations)
      ensures Terminal(t) && TaskNoticeGroup(t, operations) !in visited + {g} ==> m[t.id] == t
    {
      IdOfGroup(latest, operations, g, t);
    }
    assert forall i :: i in m ==> exists t :: t in latest && t.id == i;
  }

  /** ... and announces the group. */
  lemma GroupAnnounced(latest: seq<Task>, operations: map<nat, Operation>, visited: set<NoticeGroup>, s: State,
                       g: NoticeGroup, marked: seq<Task>)
    requires Snapshot(latest, operations, visited, s)
    requires var tasks := OfGroup(latest, operations, g);
             (forall t :: t in tasks ==> Announceable(t, s)) && AllMarked(tasks, marked) && DistinctTasks(tasks)
    ensures Announces(Notice(g, marked), WithNotices(s.tasks, IdsOf(OfGroup(latest, operations, g))), s.operations)
  {
    hide Announceable, Snapshot;
    var tasks := OfGroup(latest, operations, g);
    var s' := s.(tasks := WithNotices(s.tasks, IdsOf(tasks)));
    forall j | 0 <= j < |marked|
      ensures marked[j].id in s'.tasks && s'.tasks[marked[j].id] == marked[j] && Terminal(marked[j])
              && TaskNoticeGroup(marked[j], s'.operations) == g
    {
      assert tasks[j] in tasks && tasks[j] in latest && tasks[j].id in IdsOf(tasks);
      CurrentAndFinished(latest, operations, visited, s, tasks[j]);
    }
    forall i | i in s'.tasks && TaskNoticeGroup(s'.tasks[i], s'.operations) == g
      ensures s'.tasks[i] in marked
    {
      var t := Listing(latest, operations, visited, s, i);
      assert t in tasks;
      var j :| 0 <= j < |tasks| && tasks[j] == t;
      assert marked[j].id == i && s'.tasks[i] == marked[j];
    }
  }

  lemma CurrentAndFinished(latest: seq<Task>, operations: map<nat, Operation>, visited: set<NoticeGroup>, s: State,
                           t: Task)
    requires Snapshot(latest, operations, visited, s) && t in latest && Announceable(t, s)
    ensures t.id in s.tasks && s.tasks[t.id] == t && Terminal(t)
    ensures TaskNoticeGroup(t.(noticeEmitted := true), s.operations) == TaskNoticeGroup(t, operations)
  {
  }

  lemma Listing(latest: seq<Task>, operations: map<nat, Operation>, visited: set<NoticeGroup>, s: State, i: nat)
    returns (t: Task)
    requires Snapshot(latest, operations, visited, s) && i in s.tasks
    ensures t in latest && t.id == i
    ensures TaskNoticeGroup(s.tasks[i], s.operations) == TaskNoticeGroup(t, operations)
  {
    t :| t in latest && t.id == i;
  }

  lemma AnnouncesKept(n: Notice, s: State, ids: set<nat>)
    requires Announces(n, s.tasks, s.operations)
    ensures Announces(n, WithNotices(s.tasks, ids), s.operations)
  {
    var s' := s.(tasks := WithNotices(s.tasks, ids));
    forall i | i in s'.tasks && TaskNoticeGroup(s'.tasks[i], s'.operations) == n.group
      ensures s'.tasks[i] in n.tasks
    {
      assert TaskNoticeGroup(s.tasks[i], s.operations) == n.group;
      assert s.tasks[i] in n.tasks;
    }
  }

  predicate AllAnnounce(events: seq<Notice>, tasks: map<nat, Task>, operations: map<nat, Operation>)
  {
    forall n :: n in events ==> Announces(n, tasks, operations)
  }

  lemma OneMoreAnnounced(events: seq<Notice>, n: Notice, s: State, ids: set<nat>)
    requires AllAnnounce(events, s.tasks, s.operations) && Announces(n, WithNotices(s.tasks, ids), s.operations)
    ensures AllAnnounce(events + [n], WithNotices(s.tasks, ids), s.operations)
  {
    forall m | m in events ensures Announces(m, WithNotices(s.tasks, ids), s.operations) {
      AnnouncesKept(m, s, ids);
    }
  }

  lemma SettledByMarking(pending: set<nat>, rest: set<nat>, s: State, ids: set<nat>)
    requires Settles(pending, rest, s.tasks) && ids <= s.tasks.Keys
    ensures Settles(pending, rest - ids, WithNotices(s.tasks, ids))
  {
  }

  function Unannounced(latest: seq<Task>): set<nat>
  {
    set t | t in latest && Terminal(t) && !t.noticeEmitted :: t.id
  }

  lemma SettledByReading(pending: set<nat>, latest: seq<Task>, s: State, s': State)
    requires AllFinished(pending, s.tasks) && Lists(latest, s.tasks, TaskId) && TasksEvolve(s.tasks, s'.tasks)
    ensures Settles(pending, pending * Unannounced(latest), s'.tasks)
    ensures pending * Unannounced(latest) <= s.tasks.Keys
  {
    forall i | i in pending && i !in Unannounced(latest) ensures i in s'.tasks && s'.tasks[i].noticeEmitted {
      assert s.tasks[i] in latest && TaskId(s.tasks[i]) == i;
    }
  }

  /** The ids are those of tasks in groups still to be visited. */
  predicate ToVisit(todo: set<nat>, latest: seq<Task>, operations: map<nat, Operation>, visited: set<NoticeGroup>)
  {
    forall t :: t in latest && t.id in todo ==> TaskNoticeGroup(t, operations) !in visited
  }

  lemma VisitNext(todo: set<nat>, latest: seq<Task>, operations: map<nat, Operation>, visited: set<NoticeGroup>,
                  t: Task)
    requires ToVisit(todo, latest, operations, visited) && DistinctTasks(latest) && t in latest && t.id in todo
    ensures var g := TaskNoticeGroup(t, operations);
            var ids := IdsOf(OfGroup(latest, operations, g));
            g !in visited && t.id in ids && ToVisit(todo - ids, latest, operations, visited + {g})
            && DistinctTasks(OfGroup(latest, operations, g))
  {
    var g := TaskNoticeGroup(t, operations);
    OfGroupDistinct(latest, operations, g);
    IdOfGroup(latest, operations, g, t);
    forall u | u in latest
      ensures u.id in IdsOf(OfGroup(latest, operations, g)) <==> TaskNoticeGroup(u, operations) == g
    {
      IdOfGroup(latest, operations, g, u);
    }
  }

  lemma SnapshotDistinct(latest: seq<Task>, operations: map<nat, Operation>, visited: set<NoticeGroup>, s: State,
                         g: NoticeGroup)
    requires Snapshot(latest, operations, visited, s)
    ensures DistinctTasks(latest) && IdsOf(OfGroup(latest, operations, g)) <= s.tasks.Keys
  {
    forall i | i in IdsOf(OfGroup(latest, operations, g)) ensures i in s.tasks {
      var j :| 0 <= j < |OfGroup(latest, operations, g)| && OfGroup(latest, operations, g)[j].id == i;
      assert OfGroup(latest, operations, g)[j] in latest;
    }
  }

  /** Announces a group all of whose tasks have finished, unless it has been announced before. s0 is the state
      in which the visits began. */
  method AnnounceGroup(session: Session, p: Pid, tasks: seq<Task>, g: NoticeGroup, ghost pending: set<nat>,
                       rest: set<nat>, events: seq<Notice>, ghost visited: set<NoticeGroup>, ghost s0: State,
                       ghost origin: State)
    returns (rest': set<nat>, events': seq<Notice>)
    requires session.Settled() && Evolves(origin, session.S()) && Holds(p, session.S())
    requires (forall t :: t in tasks ==> Announceable(t, session.S())) && DistinctTasks(tasks)
    requires IdsOf(tasks) <= session.S().tasks.Keys
    requires forall marked: seq<Task> :: AllMarked(tasks, marked) ==>
               Announces(Notice(g, marked), WithNotices(session.S().tasks, IdsOf(tasks)), session.S().operations)
    requires Settles(pending, rest, session.S().tasks)
    requires AllAnnounce(events, session.S().tasks, session.S().operations)
    requires Accounted(p, events, s0, session.S()) && Apart(events, visited) && g !in visited
    modifies session
    ensures session.Settled() && Evolves(origin, session.S()) && Holds(p, session.S())
    ensures session.S() == old(session.S()).(tasks := WithNotices(old(session.S()).tasks, IdsOf(tasks)),
                                             marks := session.S().marks)
    ensures Settles(pending, rest', session.S().tasks) && rest' == rest - IdsOf(tasks)
    ensures AllAnnounce(events', session.S().tasks, session.S().operations)
    ensures Accounted(p, events', s0, session.S()) && Apart(events', visited + {g})
    ensures (exists t :: t in tasks && !t.noticeEmitted) ==> |events'| == |events| + 1 && events'[..|events|] == events
                                                             && events'[|events|].group == g
    ensures (forall t :: t in tasks ==> t.noticeEmitted) ==> events' == events && session.S() == old(session.S())
  {
    hide *;
    ghost var s := session.S();
    SettledByMarking(pending, rest, s, IdsOf(tasks));
    rest', events' := rest - IdsOf(tasks), events;
    ApartMore(events, visited, Notice(g, []));
    if forall t :: t in tasks ==> t.noticeEmitted {
      AlreadyMarked(s, tasks);
    } else {
      session.SettledMeans();
      MarksOfInv(s);
      DistinctMeans(tasks);
      var marked := MarkTerminalNoticeEmitted(session, p, tasks, origin);
      ghost var s' := session.S();
      session.SettledMeans();
      MarksOfInv(s');
      MarkedMeans(p, IdsOf(tasks), s, s');
      MarkedIds(tasks, marked);
      ghost var n := Notice(g, marked);
      OneMoreAnnounced(events, n, s, IdsOf(tasks));
      ghost var t :| t in tasks && !t.noticeEmitted;
      AnnounceableMeans(t, s);
      IdOfTask(tasks, t);
      OneNoticeAccounted(p, n, IdsOf(tasks), t, s, s');
      AccountedThen(p, events, [n], s0, s, s');
      ApartMore(events, visited, n);
      events' := events + [Notice(g, marked)];
    }
  }

  lemma MarkedMeans(p: Pid, ids: set<nat>, s: State, s': State)
    requires MarkedBy(p, ids, s, s')
    ensures s' == s.(tasks := WithNotices(s.tasks, ids), marks := s'.marks) && (Holds(p, s) ==> Holds(p, s'))
  {
    hide WithNotices;
  }

  lemma MarkedIds(tasks: seq<Task>, marked: seq<Task>)
    requires |marked| == |tasks| && forall j :: 0 <= j < |tasks| ==> marked[j] == tasks[j].(noticeEmitted := true)
    ensures AllMarked(tasks, marked) && IdsOf(marked) == IdsOf(tasks)
  {
    assert forall j :: 0 <= j < |tasks| ==> marked[j].id == tasks[j].id;
    forall i ensures i in IdsOf(marked) <==> i in IdsOf(tasks) {
      if i in IdsOf(tasks) {
        var j :| 0 <= j < |tasks| && tasks[j].id == i;
        assert marked[j].id == i;
      }
    }
  }

  lemma DistinctMeans(tasks: seq<Task>)
    requires DistinctTasks(tasks)
    ensures forall i, j :: 0 <= i < j < |tasks| ==> tasks[i].id != tasks[j].id
  {
  }

  lemma AnnounceableMeans(t: Task, s: State)
    requires Announceable(t, s)
    ensures t.id in s.tasks && s.tasks[t.id] == t
  {
  }

  lemma IdOfTask(tasks: seq<Task>, t: Task)
    requires t in tasks
    ensures t.id in IdsOf(tasks)
  {
    var j :| 0 <= j < |tasks| && tasks[j] == t;
  }

  predicate AllMarked(tasks: seq<Task>, marked: seq<Task>)
  {
    |marked| == |tasks| && forall j :: 0 <= j < |tasks| ==> marked[j] == tasks[j].(noticeEmitted := true)
  }

  /** Visits one group under the run lock: it is announced if all its tasks have finished. */
  method VisitGroup(session: Session, p: Pid, latest: seq<Task>, operations: map<nat, Operation>,
                    ghost visited: set<NoticeGroup>, g: NoticeGroup, ghost pending: set<nat>, rest: set<nat>,
                    events: seq<Notice>, ghost s0: State, ghost origin: State)
    returns (rest': set<nat>, events': seq<Notice>)
    requires session.Settled() && Evolves(origin, session.S()) && Holds(p, session.S())
    requires Snapshot(latest, operations, visited, session.S()) && g !in visited
    requires Settles(pending, rest, session.S().tasks)
    requires AllAnnounce(events, session.S().tasks, session.S().operations)
    requires Accounted(p, events, s0, session.S()) && Apart(events, visited)
    modifies session
    ensures session.Settled() && Evolves(origin, session.S()) && Holds(p, session.S())
    ensures Snapshot(latest, operations, visited + {g}, session.S())
    ensures Settles(pending, rest', session.S().tasks)
    ensures AllAnnounce(events', session.S().tasks, session.S().operations)
    ensures Accounted(p, events', s0, session.S()) && Apart(events', visited + {g})
    ensures (exists t :: t in OfGroup(latest, operations, g) && !Terminal(t)) ==>
              events' == events && rest' == rest && session.S() == old(session.S())
    ensures (forall t :: t in OfGroup(latest, operations, g) ==> Terminal(t)) ==>
              var ids := IdsOf(OfGroup(latest, operations, g));
              rest' == rest - ids && session.S().tasks == WithNotices(old(session.S()).tasks, ids)
  {
    hide *;
    ghost var s := session.S();
    var tasks := OfGroup(latest, operations, g);
    SnapshotDistinct(latest, operations, visited, s, g);
    OfGroupDistinct(latest, operations, g);
    SnapshotWider(latest, operations, visited, s, g);
    ApartMore(events, visited, Notice(g, []));
    rest', events' := rest, events;
    if forall t :: t in tasks ==> Terminal(t) {
      GroupAnnounceable(latest, operations, visited, s, g);
      forall marked | AllMarked(tasks, marked)
        ensures Announces(Notice(g, marked), WithNotices(s.tasks, IdsOf(tasks)), s.operations)
      {
        GroupAnnounced(latest, operations, visited, s, g, marked);
      }
      rest', events' := AnnounceGroup(session, p, tasks, g, pending, rest, events, visited, s0, origin);
      SnapshotKept(latest, operations, visited, s, g, session.S());
    }
  }

  lemma AlreadyMarked(s: State, tasks: seq<Task>)
    requires forall t :: t in tasks ==> Announceable(t, s) && t.noticeEmitted
    ensures WithNotices(s.tasks, IdsOf(tasks)) == s.tasks
  {
    forall i | i in s.tasks && i in IdsOf(tasks) ensures s.tasks[i].noticeEmitted {
      var j :| 0 <= j < |tasks| && tasks[j].id == i;
      assert tasks[j] in tasks;
    }
  }

  lemma SettlesNothing(pending: set<nat>, tasks: map<nat, Task>)
    ensures Settles(pending, pending, tasks)
  {
  }

  lemma NoNews(s: State)
    ensures AllAnnounce([], s.tasks, s.operations) && Apart([], {})
  {
  }

  lemma NothingVisited(todo: set<nat>, latest: seq<Task>, operations: map<nat, Operation>)
    ensures ToVisit(todo, latest, operations, {})
  {
  }

  lemma Fewer(left: set<nat>, todo: set<nat>, i: nat)
    requires left <= todo && i in todo && i !in left
    ensures |left| < |todo|
  {
    var rest := todo - {i} - left;
    assert todo == left + rest + {i};
  }

  /** The entry of `tasks_by_id`. */
  method TaskWithId(latest: seq<Task>, tid: nat) returns (task: Task)
    requires exists t :: t in latest && t.id == tid
    ensures task in latest && task.id == tid
  {
    var i := 0;
    while latest[i].id != tid
      invariant i < |latest| && exists t :: t in latest[i..] && t.id == tid
      decreases |latest| - i
    {
      i := i + 1;
    }
    return latest[i];
  }

  lemma UnannouncedListed(latest: seq<Task>, pending: set<nat>)
    ensures forall i :: i in pending * Unannounced(latest) ==> exists t :: t in latest && t.id == i
  {
  }

  predicate GroupUnfinished(t: Task, latest: seq<Task>, operations: map<nat, Operation>)
  {
    exists u :: u in OfGroup(latest, operations, TaskNoticeGroup(t, operations)) && !Terminal(u)
  }

  /** What is pending and not to be visited any more waits for an unfinished task. */
  predicate Waits(rest: set<nat>, todo: set<nat>, latest: seq<Task>, operations: map<nat, Operation>)
  {
    forall t :: t in latest && t.id in rest && t.id !in todo ==> GroupUnfinished(t, latest, operations)
  }

  lemma WaitsNext(rest: set<nat>, rest': set<nat>, todo: set<nat>, latest: seq<Task>, operations: map<nat, Operation>,
                  g: NoticeGroup)
    requires Waits(rest, todo, latest, operations) && DistinctTasks(latest)
    requires (exists t :: t in OfGroup(latest, operations, g) && !Terminal(t)) ==> rest' == rest
    requires (forall t :: t in OfGroup(latest, operations, g) ==> Terminal(t)) ==>
               rest' == rest - IdsOf(OfGroup(latest, operations, g))
    ensures Waits(rest', todo - IdsOf(OfGroup(latest, operations, g)), latest, operations) && rest' <= rest
  {
    var ids := IdsOf(OfGroup(latest, operations, g));
    forall t | t in latest && t.id in rest' && t.id !in todo - ids ensures GroupUnfinished(t, latest, operations) {
      IdOfGroup(latest, operations, g, t);
    }
  }

  lemma NothingWaits(pending: set<nat>, latest: seq<Task>, operations: map<nat, Operation>)
    ensures Waits(pending, pending, latest, operations)
  {
  }

  lemma WaitsForAll(rest: set<nat>, latest: seq<Task>, operations: map<nat, Operation>, s: State)
    requires Waits(rest, {}, latest, operations) && Lists(latest, s.tasks, TaskId) && operations == s.operations
    ensures forall i :: i in rest && i in s.tasks ==> !GroupTerminal(s.tasks[i], s)
  {
    forall i | i in rest && i in s.tasks ensures !GroupTerminal(s.tasks[i], s) {
      var t := s.tasks[i];
      assert t in latest && TaskId(t) == i;
      assert GroupUnfinished(t, latest, operations);
      var u :| u in OfGroup(latest, operations, TaskNoticeGroup(t, operations)) && !Terminal(u);
      assert u in latest && s.tasks[TaskId(u)] == u;
    }
  }

  /** The loop over the groups of one poll, which may be visited in any order. */
  method VisitGroups(session: Session, p: Pid, latest: seq<Task>, operations: map<nat, Operation>, pending: set<nat>,
                     ghost all: set<nat>, ghost origin: State)
    returns (rest: set<nat>, events: seq<Notice>, ghost visited: set<NoticeGroup>)
    requires session.Settled() && Evolves(origin, session.S()) && Holds(p, session.S())
    requires Snapshot(latest, operations, {}, session.S())
    requires forall i :: i in pending ==> exists t :: t in latest && t.id == i
    requires Settles(all, pending, session.S().tasks)
    modifies session
    ensures session.Settled() && Evolves(origin, session.S()) && Holds(p, session.S())
    ensures Settles(all, rest, session.S().tasks) && rest <= pending
    ensures AllAnnounce(events, session.S().tasks, session.S().operations)
    ensures Accounted(p, events, old(session.S()), session.S()) && Apart(events, visited)
    ensures Waits(rest, {}, latest, operations)
  {
    hide *;
    ghost var s0 := session.S();
    NothingWaits(pending, latest, operations);
    rest, events := pending, [];
    var todo := pending;
    visited := {};
    NothingVisited(todo, latest, operations);
    NoNews(s0);
    NothingToTell(p, s0, s0);
    while todo != {}
      invariant session.Settled() && Evolves(origin, session.S()) && Holds(p, session.S())
      invariant Snapshot(latest, operations, visited, session.S()) && ToVisit(todo, latest, operations, visited)
      invariant todo <= pending && rest <= pending && Settles(all, rest, session.S().tasks)
      invariant Waits(rest, todo, latest, operations)
      invariant AllAnnounce(events, session.S().tasks, session.S().operations)
      invariant Accounted(p, events, s0, session.S()) && Apart(events, visited)
      decreases |todo|
    {
      var tid :| tid in todo;
      var task := TaskWithId(latest, tid);
      var g := TaskNoticeGroup(task, operations);
      SnapshotDistinct(latest, operations, visited, session.S(), g);
      VisitNext(todo, latest, operations, visited, task);
      ghost var before := rest;
      rest, events := VisitGroup(session, p, latest, operations, visited, g, all, rest, events, s0, origin);
      WaitsNext(before, rest, todo, latest, operations, g);
      var left := todo - IdsOf(OfGroup(latest, operations, g));
      Fewer(left, todo, tid);
      todo, visited := left, visited + {g};
      Yield(session, p, latest, operations, visited, all, rest, events, s0, origin);
    }
  }

  /** The notice is handed to the client; meanwhile the other processes run. */
  method Yield(session: Session, p: Pid, ghost latest: seq<Task>, ghost operations: map<nat, Operation>,
               ghost visited: set<NoticeGroup>, ghost pending: set<nat>, ghost rest: set<nat>,
               ghost events: seq<Notice>, ghost s0: State, ghost origin: State)
    requires session.Settled() && Evolves(origin, session.S()) && Holds(p, session.S())
    requires Snapshot(latest, operations, visited, session.S()) && Settles(pending, rest, session.S().tasks)
    requires AllAnnounce(events, session.S().tasks, session.S().operations) && Accounted(p, events, s0, session.S())
    modifies session
    ensures session.Settled() && Evolves(origin, session.S()) && Holds(p, session.S())
    ensures Snapshot(latest, operations, visited, session.S()) && Settles(pending, rest, session.S().tasks)
    ensures AllAnnounce(events, session.S().tasks, session.S().operations) && Accounted(p, events, s0, session.S())
  {
    hide *;
    ghost var before := session.S();
    session.Interfere(p, origin);
    RelyMeans(p, before, session.S());
    NoMarksUnderLock(p, before, session.S());
    SnapshotUnder(p, latest, operations, visited, before, session.S());
    SettlesUnder(pending, rest, before.tasks, session.S().tasks);
    AllAnnounceUnder(p, events, before, session.S());
    AccountedSame(p, events, s0, before, session.S());
  }

  lemma NoMarksUnderLock(p: Pid, s: State, s': State)
    requires Holds(p, s) && Rely(p, s, s')
    ensures s'.marks == s.marks
  {
    hide Inv;
  }

  /** What the notices of one poll are based on: the tasks and operations as read under the run lock, and
      the pending ids that are still worth a notice. */
  method ReadForNotices(session: Session, p: Pid, pending: set<nat>, ghost origin: State)
    returns (latest: seq<Task>, operations: map<nat, Operation>, still: set<nat>)
    requires session.Settled() && Evolves(origin, session.S()) && Holds(p, session.S())
    requires AllFinished(pending, session.S().tasks)
    modifies session
    ensures session.Settled() && Evolves(origin, session.S()) && Holds(p, session.S())
    ensures Snapshot(latest, operations, {}, session.S()) && Settles(pending, still, session.S().tasks)
    ensures session.S().marks == old(session.S()).marks
    ensures forall i :: i in still ==> exists t :: t in latest && t.id == i
    ensures Lists(latest, old(session.S()).tasks, TaskId) && operations == old(session.S()).operations
            && still <= pending
  {
    hide Inv, Evolves, Rely, Snapshot, Terminal, TasksEvolve, Settles, Unannounced, AllFinished, Lists;
    latest := session.LoadTasks();
    operations := Latest(session.operations, OperationId);
    ghost var read := session.S();
    session.Interfere(p, origin);
    SnapshotTaken(p, latest, read, session.S());
    RelyMeans(p, read, session.S());
    NoMarksUnderLock(p, read, session.S());
    SettledByReading(pending, latest, read, session.S());
    still := pending * Unannounced(latest);
    UnannouncedListed(latest, pending);
  }

  lemma UnlockedGroups(s: State, s': State)
    requires s'.tasks == s.tasks && s'.operations == s.operations
    ensures forall i :: i in s.tasks ==> (GroupTerminal(s.tasks[i], s) <==> GroupTerminal(s'.tasks[i], s'))
  {
  }

  /** `_emit_pending_terminal_notices`, under the run lock if it is free. */
  method EmitPendingTerminalNotices(session: Session, p: Pid, pending: set<nat>, ghost origin: State)
    returns (rest: set<nat>, events: seq<Notice>, ghost visited: set<NoticeGroup>)
    requires session.Settled() && Evolves(origin, session.S()) && !Holds(p, session.S())
    requires AllFinished(pending, session.S().tasks)
    modifies session
    ensures session.Settled() && Evolves(origin, session.S()) && !Holds(p, session.S())
    ensures Settles(pending, rest, session.S().tasks)
    // every task marked now stands in exactly one notice, and every notice is about a group of its own
    ensures Accounted(p, events, old(session.S()), session.S()) && Apart(events, visited)
    ensures AllAnnounce(events, session.S().tasks, session.S().operations)
    // a task stays pending only while its group has an unfinished task, or while the session is busy
    ensures old(session.S()).lock.None? ==>
              forall i :: i in rest && i in old(session.S()).tasks ==>
                            !GroupTerminal(old(session.S()).tasks[i], old(session.S()))
    ensures old(session.S()).lock.Some? ==> session.S() == old(session.S()) && rest == pending
  {
    hide *;
    ghost var s := session.S();
    SettlesNothing(pending, s.tasks);
    NoNews(s);
    NothingToTell(p, s, s);
    rest, events, visited := pending, [], {};
    if pending == {} {
      return;
    }
    var acquired := session.TryAcquireRunLock(p, origin);
    if !acquired {
      return;
    }
    ghost var locked := session.S();
    FinishedStillThere(pending, s, locked);
    var latest, operations, still := ReadForNotices(session, p, pending, origin);
    ghost var read := session.S();
    rest, events, visited := VisitGroups(session, p, latest, operations, still, pending, origin);
    WaitsForAll(rest, latest, operations, locked);
    UnlockedGroups(s, locked);
    ghost var visitedAll := session.S();
    session.ReleaseRunLock(p, origin);
    AccountedFrom(p, events, read, s, visitedAll, session.S());
  }

  lemma FinishedStillThere(pending: set<nat>, s: State, s': State)
    requires AllFinished(pending, s.tasks) && s'.tasks == s.tasks
    ensures AllFinished(pending, s'.tasks)
  {
  }

  lemma AccountedFrom(p: Pid, notices: seq<Notice>, s: State, s0: State, s1: State, s2: State)
    requires Accounted(p, notices, s, s1) && s0.marks == s.marks && s2.marks == s1.marks
    ensures Accounted(p, notices, s0, s2)
  {
    AccountedSame(p, notices, s, s1, s2);
    forall n | n in notices ensures HasNews(p, n, s0, s2) {
      assert HasNews(p, n, s, s2);
    }
  }

  // ---------------------------------------------------------------- the stream

  /** One `task_status_changed` event. */
  datatype Change = Change(previous: Task, task: Task)

  function FinishedIds(tasks: seq<Task>): set<nat> { set t | t in tasks && Terminal(t) :: t.id }

  /** The comparison loop of one poll. */
  method ComparePoll(latest: seq<Task>, previous: map<nat, Task>, pending: set<nat>)
    returns (pending': set<nat>, changes: seq<Change>)
    requires DistinctTasks(latest)
    ensures pending + Unannounced(latest) <= pending' <= pending + FinishedIds(latest)
    ensures forall c :: c in changes <==> c.task in latest && c.task.id in previous
                                          && c.previous == previous[c.task.id] && c.previous.view != c.task.view
    ensures forall i, j :: 0 <= i < j < |changes| ==> changes[i].task.id != changes[j].task.id
  {
    pending', changes := pending, [];
    for i := 0 to |latest|
      invariant pending + Unannounced(latest[..i]) <= pending' <= pending + FinishedIds(latest[..i])
      invariant forall c :: c in changes <==> c.task in latest[..i] && c.task.id in previous
                                              && c.previous == previous[c.task.id] && c.previous.view != c.task.view
      invariant forall k, j :: 0 <= k < j < |changes| ==> changes[k].task.id != changes[j].task.id
    {
      var task := latest[i];
      assert forall t :: t in latest[..i + 1] <==> t in latest[..i] || t == task;
      if Terminal(task) && !task.noticeEmitted {
        pending' := pending' + {task.id};
      }
      if task.id in previous && previous[task.id].view != task.view {
        if !Terminal(previous[task.id]) && Terminal(task) {
          pending' := pending' + {task.id};
        }
        changes := changes + [Change(previous[task.id], task)];
      }
    }
    assert latest[..|latest|] == latest;
  }

  lemma FinishedStay(ids: set<nat>, more: set<nat>, tasks: map<nat, Task>, tasks': map<nat, Task>)
    requires AllFinished(ids, tasks) && more <= ids && TasksEvolve(tasks, tasks')
    ensures AllFinished(more, tasks')
  {
  }

  lemma PollFinished(latest: seq<Task>, pending: set<nat>, more: set<nat>, log: map<nat, Task>)
    requires Lists(latest, log, TaskId) && AllFinished(pending, log) && more <= pending + FinishedIds(latest)
    ensures AllFinished(more, log)
  {
    assert forall t :: t in latest ==> TaskId(t) == t.id;
  }

  /** Nothing that had finished at the previous poll is reported as changed. */
  lemma ChangesAreLive(latest: seq<Task>, previous: map<nat, Task>, log: map<nat, Task>)
    requires Lists(latest, log, TaskId) && TasksEvolve(previous, log)
    ensures forall t :: t in latest && t.id in previous && Terminal(previous[t.id]) ==> previous[t.id].view == t.view
  {
    assert forall t :: t in latest ==> TaskId(t) == t.id;
  }

  predicate AllAnnounced(tasks: seq<Task>, log: map<nat, Task>)
  {
    forall t :: t in tasks ==> t.id in log && Terminal(log[t.id]) && log[t.id].noticeEmitted
  }

  lemma ClosedWhenAnnounced(latest: seq<Task>, pending: set<nat>, log: map<nat, Task>, log': map<nat, Task>)
    requires Lists(latest, log, TaskId) && TasksEvolve(log, log') && (forall t :: t in latest ==> Terminal(t))
    requires Unannounced(latest) <= pending && Settles(pending, {}, log')
    ensures AllAnnounced(latest, log')
  {
    assert forall t :: t in latest ==> TaskId(t) == t.id;
    forall t | t in latest ensures log'[t.id].noticeEmitted {
      if !t.noticeEmitted {
        assert t.id in Unannounced(latest);
      }
    }
  }

  predicate AllLive(changes: seq<Change>)
  {
    forall c :: c in changes ==> !Terminal(c.previous) && c.previous.view != c.task.view
  }

  /** The changes are those of the tasks whose visible fields differ from what they were, each once. */
  ghost predicate Reported(changes: seq<Change>, latest: seq<Task>, previous: map<nat, Task>)
  {
    && (forall c :: c in changes <==> c.task in latest && c.task.id in previous
                                      && c.previous == previous[c.task.id] && c.previous.view != c.task.view)
    && (forall i, j :: 0 <= i < j < |changes| ==> changes[i].task.id != changes[j].task.id)
  }

  /** One turn of the stream's loop, when the server's answers are these. from is the state in which the notices
      were attended to. */
  method Poll(session: Session, p: Pid, previous: map<nat, Task>, pending: set<nat>, answers: nat -> Answer)
    returns (latest: seq<Task>, latestById: map<nat, Task>, rest: set<nat>, changes: seq<Change>,
             notices: seq<Notice>, done: bool, ghost visited: set<NoticeGroup>, ghost from: State)
    requires session.Settled() && !Holds(p, session.S())
    requires TasksEvolve(previous, session.S().tasks) && AllFinished(pending, session.S().tasks)
    modifies session
    ensures session.Settled() && !Holds(p, session.S()) && Evolves(old(session.S()), session.S())
    // every task is listed as it is after the answers, and the changes are those of its visible fields
    ensures AllRefreshed(old(session.S()).tasks, answers, latestById) && Lists(latest, latestById, TaskId)
    ensures Reported(changes, latest, previous) && AllLive(changes)
    ensures TasksEvolve(latestById, session.S().tasks) && AllFinished(rest, session.S().tasks)
    // the tasks marked in this turn are those that the notices tell of, each in one notice
    ensures Accounted(p, notices, old(session.S()), session.S()) && Apart(notices, visited)
    ensures AllAnnounce(notices, session.S().tasks, session.S().operations)
    // what was due and is not pending any more is announced, and what is still pending has to wait
    ensures Settles(pending + Unannounced(latest), rest * (pending + Unannounced(latest)), session.S().tasks)
    ensures Evolves(old(session.S()), from) && Evolves(from, session.S()) && Idle(p, old(session.S()), from)
    ensures if from.lock.Some? then session.S() == from
            else forall i :: i in rest && i in from.tasks ==> !GroupTerminal(from.tasks[i], from)
    ensures done <==> (forall t :: t in latest ==> Terminal(t)) && rest == {}
    ensures done ==> AllAnnounced(latest, session.S().tasks)
  {
    hide *;
    ghost var s := session.S();
    EvolvesReflexive(s);
    latest := ListTasksWithLazyRefresh(session, p, answers, s);
    latestById := Latest(session.tasks, TaskId);
    ghost var listed := session.S();
    TasksOfLog(session);
    OnlyTasksChanged(p, s, listed);
    TasksOfEvolution(s, listed);
    PreviousEvolves(previous, s.tasks, listed.tasks);
    ListedOnce(latest, listed.tasks);
    var more: set<nat>;
    more, changes := ComparePoll(latest, previous, pending);
    ReportedMeans(changes, latest, previous);
    ChangesAreLive(latest, previous, listed.tasks);
    LiveChanges(changes, latest, previous);
    FinishedStay(pending, pending, s.tasks, listed.tasks);
    PollFinished(latest, pending, more, listed.tasks);
    session.Interfere(p, s);
    ghost var before := session.S();
    from := before;
    RelyMeans(p, listed, before);
    IdleFrom(p, s, listed, before);
    NothingToTell(p, s, before);
    FinishedStay(more, more, listed.tasks, before.tasks);
    EvolvesReflexive(before);
    rest, notices, visited := EmitPendingTerminalNotices(session, p, more, before);
    AccountedThen(p, [], notices, s, before, session.S());
    assert [] + notices == notices;
    EvolvesTransitive(s, before, session.S());
    TasksOfEvolution(before, session.S());
    PreviousEvolves(listed.tasks, before.tasks, session.S().tasks);
    PendingShrinks(more, rest, session.S().tasks);
    FinishedStay(more, rest, before.tasks, session.S().tasks);
    SettlesFewer(pending + Unannounced(latest), more, rest, session.S().tasks);
    done := (forall t :: t in latest ==> Terminal(t)) && rest == {};
    if done {
      ClosedWhenAnnounced(latest, more, listed.tasks, session.S().tasks);
    }
  }

  lemma TasksOfLog(session: Session)
    ensures session.S().tasks == Latest(session.tasks, TaskId)
  {
  }

  lemma OnlyTasksChanged(p: Pid, s: State, s': State)
    requires OnlyTasksRefreshed(s, s')
    ensures Idle(p, s, s') && (Holds(p, s) <==> Holds(p, s'))
  {
  }

  lemma IdleFrom(p: Pid, s: State, s1: State, s2: State)
    requires Idle(p, s, s1) && Idle(p, s1, s2)
    ensures Idle(p, s, s2)
  {
  }

  lemma TasksOfEvolution(s: State, s': State)
    requires Evolves(s, s')
    ensures TasksEvolve(s.tasks, s'.tasks)
  {
  }

  lemma ListedOnce(latest: seq<Task>, log: map<nat, Task>)
    requires Lists(latest, log, TaskId)
    ensures DistinctTasks(latest)
  {
    assert forall i :: 0 <= i < |latest| ==> TaskId(latest[i]) == latest[i].id;
  }

  lemma ReportedMeans(changes: seq<Change>, latest: seq<Task>, previous: map<nat, Task>)
    requires forall c :: c in changes <==> c.task in latest && c.task.id in previous
                                           && c.previous == previous[c.task.id] && c.previous.view != c.task.view
    requires forall i, j :: 0 <= i < j < |changes| ==> changes[i].task.id != changes[j].task.id
    ensures Reported(changes, latest, previous)
  {
  }

  lemma LiveChanges(changes: seq<Change>, latest: seq<Task>, previous: map<nat, Task>)
    requires Reported(changes, latest, previous)
    requires forall t :: t in latest && t.id in previous && Terminal(previous[t.id]) ==> previous[t.id].view == t.view
    ensures AllLive(changes)
  {
  }

  lemma SettlesFewer(due: set<nat>, more: set<nat>, rest: set<nat>, log: map<nat, Task>)
    requires due <= more && Settles(more, rest, log)
    ensures Settles(due, rest * due, log)
  {
  }

  lemma PreviousEvolves(a: map<nat, Task>, b: map<nat, Task>, c: map<nat, Task>)
    requires TasksEvolve(a, b) && TasksEvolve(b, c)
    ensures TasksEvolve(a, c)
  {
  }

  lemma PendingShrinks(pending: set<nat>, rest: set<nat>, log: map<nat, Task>)
    requires Settles(pending, rest, log)
    ensures rest <= pending
  {
  }

  /** What a notice has told is still so: its tasks are in the log as it lists them, finished and announced. */
  predicate StillTrue(notices: seq<Notice>, log: map<nat, Task>)
  {
    forall n :: n in notices ==>
      n.tasks != [] && forall t :: t in n.tasks ==> t.id in log && log[t.id] == t && Terminal(t) && t.noticeEmitted
  }

  lemma StillTrueLater(notices: seq<Notice>, log: map<nat, Task>, log': map<nat, Task>)
    requires StillTrue(notices, log) && TasksEvolve(log, log')
    ensures StillTrue(notices, log')
  {
    forall n, t | n in notices && t in n.tasks ensures t.id in log' && log'[t.id] == t {
      assert log[t.id] == t && SameTask(log'[t.id], t);
    }
  }

  lemma TrueWhenTold(p: Pid, notices: seq<Notice>, s: State, s': State)
    requires AllAnnounce(notices, s'.tasks, s'.operations) && Accounted(p, notices, s, s')
    ensures StillTrue(notices, s'.tasks)
  {
    forall n | n in notices
      ensures n.tasks != [] && forall t :: t in n.tasks ==> t.id in s'.tasks && s'.tasks[t.id] == t && Terminal(t)
                                                            && t.noticeEmitted
    {
      assert Announces(n, s'.tasks, s'.operations) && HasNews(p, n, s, s');
    }
  }

  lemma TrueTogether(before: seq<Notice>, after: seq<Notice>, log: map<nat, Task>)
    requires StillTrue(before, log) && StillTrue(after, log)
    ensures StillTrue(before + after, log)
  {
  }

  lemma NothingTold(p: Pid, s: State)
    ensures Accounted(p, [], s, s) && StillTrue([], s.tasks) && AllLive([])
  {
  }

  /** `stream_session_task_events`, for a client that goes away after the given number of polls. When the
      stream closes by itself, every task of its last list has finished and is marked as announced; and the tasks
      that the stream has marked are those that its notices told the client of. */
  method StreamSessionTaskEvents(session: Session, p: Pid, polls: nat, answers: nat -> (nat -> Answer))
    returns (closed: bool, last: seq<Task>, changes: seq<Change>, notices: seq<Notice>)
    requires session.Settled() && !Holds(p, session.S())
    modifies session
    ensures session.Settled() && !Holds(p, session.S()) && Evolves(old(session.S()), session.S())
    ensures closed ==> AllAnnounced(last, session.S().tasks)
    ensures Accounted(p, notices, old(session.S()), session.S()) && StillTrue(notices, session.S().tasks)
    ensures AllLive(changes)
  {
    hide *;
    ghost var origin := session.S();
    EvolvesReflexive(origin);
    var initial := session.LoadTasks();
    var previous := Latest(session.tasks, TaskId);
    var pending := Unannounced(initial);
    TasksOfLog(session);
    InitiallyFinished(initial, origin.tasks);
    NothingTold(p, origin);
    closed, last, changes, notices := false, initial, [], [];
    for i := 0 to polls
      invariant session.Settled() && !Holds(p, session.S()) && Evolves(origin, session.S())
      invariant TasksEvolve(previous, session.S().tasks) && AllFinished(pending, session.S().tasks) && AllLive(changes)
      invariant Accounted(p, notices, origin, session.S()) && StillTrue(notices, session.S().tasks)
    {
      var news: seq<Change>, told: seq<Notice>, done: bool;
      last, previous, pending, news, told, done :=
        WakeAndPoll(session, p, previous, pending, answers(i), notices, origin);
      AllLiveTogether(changes, news);
      changes, notices := changes + news, notices + told;
      if done {
        closed := true;
        break;
      }
    }
  }

  lemma AllLiveTogether(changes: seq<Change>, news: seq<Change>)
    requires AllLive(changes) && AllLive(news)
    ensures AllLive(changes + news)
  {
  }

  /** The others act while the stream sleeps; then comes a poll. */
  method WakeAndPoll(session: Session, p: Pid, previous: map<nat, Task>, pending: set<nat>, answers: nat -> Answer,
                     ghost notices: seq<Notice>, ghost origin: State)
    returns (latest: seq<Task>, latestById: map<nat, Task>, rest: set<nat>, news: seq<Change>, told: seq<Notice>,
             done: bool)
    requires session.Settled() && !Holds(p, session.S()) && Evolves(origin, session.S())
    requires TasksEvolve(previous, session.S().tasks) && AllFinished(pending, session.S().tasks)
    requires Accounted(p, notices, origin, session.S()) && StillTrue(notices, session.S().tasks)
    modifies session
    ensures session.Settled() && !Holds(p, session.S()) && Evolves(origin, session.S())
    ensures TasksEvolve(latestById, session.S().tasks) && AllFinished(rest, session.S().tasks) && AllLive(news)
    ensures Accounted(p, notices + told, origin, session.S()) && StillTrue(notices + told, session.S().tasks)
    ensures done ==> AllAnnounced(latest, session.S().tasks)
  {
    hide *;
    ghost var asleep := session.S();
    session.Interfere(p, origin);
    ghost var awake := session.S();
    RelyMeans(p, asleep, awake);
    PreviousEvolves(previous, asleep.tasks, awake.tasks);
    FinishedStay(pending, pending, asleep.tasks, awake.tasks);
    NothingToTell(p, asleep, awake);
    AccountedThen(p, notices, [], origin, asleep, awake);
    assert notices + [] == notices;
    ghost var visited, from;
    latest, latestById, rest, news, told, done, visited, from := Poll(session, p, previous, pending, answers);
    EvolvesTransitive(origin, awake, session.S());
    AccountedThen(p, notices, told, origin, awake, session.S());
    TasksOfEvolution(awake, session.S());
    PreviousEvolves(asleep.tasks, awake.tasks, session.S().tasks);
    StillTrueLater(notices, asleep.tasks, session.S().tasks);
    TrueWhenTold(p, told, awake, session.S());
    TrueTogether(notices, told, session.S().tasks);
  }

  lemma InitiallyFinished(initial: seq<Task>, log: map<nat, Task>)
    requires Lists(initial, log, TaskId)
    ensures AllFinished(Unannounced(initial), log)
  {
    assert forall t :: t in initial ==> TaskId(t) == t.id;
  }
}
